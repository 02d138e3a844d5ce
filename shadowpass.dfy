/**
 * xq-shadowpass.ts: the shadow builder. It culls the scene's local lights into the lists the
 * main pass reads, renders the main light's cascaded shadow map (one viewport tile per
 * cascade level) and one shadow map per shadow-casting spot light, up to the mobile maximum.
 */
module ShadowPass {
  import opened Wrappers
  import opened Host
  import opened RenderGraph
  import opened Names
  import opened Features
  import opened Cameras

  const RenderOrder: int := 200

  // ---------------------------------------------------------------- light culling

  /** The four acceptance tests of `_cullLights`. */
  datatype CullRule = ShadowedSpot | UnshadowedSpot | LocalLight | RangedLight

  /**
   * Spot, sphere and point lights must not be baked and must pass the sphere-frustum test;
   * ranged directional lights only have to pass the box-frustum test.
   */
  predicate Accepts(rule: CullRule, camera: Camera, l: Light) {
    match rule
    case ShadowedSpot => !l.baked && InFrustum(camera, l) && l.shadowEnabled
    case UnshadowedSpot => !l.baked && InFrustum(camera, l) && !l.shadowEnabled
    case LocalLight => !l.baked && InFrustum(camera, l)
    case RangedLight => InFrustum(camera, l)
  }

  /** The lights of `s` a rule accepts, in the order of `s`: what the pushes of one loop leave. */
  function Kept(rule: CullRule, camera: Camera, s: seq<Light>): (r: seq<Light>)
    ensures |r| <= |s|
  {
    if |s| == 0 then []
    else Kept(rule, camera, s[..|s| - 1]) + (if Accepts(rule, camera, s[|s| - 1]) then [s[|s| - 1]] else [])
  }

  /** A light is kept exactly when it is in the list and the rule accepts it. */
  lemma {:induction false} KeptMembers(rule: CullRule, camera: Camera, s: seq<Light>, l: Light)
    ensures l in Kept(rule, camera, s) <==> l in s && Accepts(rule, camera, l)
    decreases |s|
  {
    if |s| > 0 {
      var init := s[..|s| - 1];
      KeptMembers(rule, camera, init, l);
      assert s == init + [s[|s| - 1]];
    }
  }

  /** A rule that accepts every light of the list keeps the whole list, in order. */
  lemma {:induction false} KeptAll(rule: CullRule, camera: Camera, s: seq<Light>)
    requires forall k :: 0 <= k < |s| ==> Accepts(rule, camera, s[k])
    ensures Kept(rule, camera, s) == s
    decreases |s|
  {
    if |s| > 0 {
      KeptAll(rule, camera, s[..|s| - 1]);
      assert s == s[..|s| - 1] + [s[|s| - 1]];
    }
  }

  /** `shadowEnabledSpotLights` after `_cullLights`. */
  function ShadowedSpots(camera: Camera, scene: Scene): seq<Light> {
    Kept(ShadowedSpot, camera, scene.spotLights)
  }

  /** `lights` after `_cullLights`: spot, sphere, point, then ranged lights, each in scene order. */
  function CulledLights(camera: Camera, scene: Scene): seq<Light> {
    Kept(UnshadowedSpot, camera, scene.spotLights) + Kept(LocalLight, camera, scene.sphereLights)
    + Kept(LocalLight, camera, scene.pointLights) + Kept(RangedLight, camera, scene.rangedDirLights)
  }

  /**
   * The partition `_cullLights` computes: the shadowed list holds exactly the visible, unbaked,
   * shadow-casting spot lights; the other list exactly the remaining visible unbaked spot lights,
   * the visible unbaked sphere and point lights and the visible ranged directional lights.
   */
  lemma CullPartition(camera: Camera, scene: Scene, l: Light)
    ensures l in ShadowedSpots(camera, scene) <==>
              l in scene.spotLights && !l.baked && InFrustum(camera, l) && l.shadowEnabled
    ensures l in CulledLights(camera, scene) <==>
              (l in scene.spotLights && !l.baked && InFrustum(camera, l) && !l.shadowEnabled)
              || (l in scene.sphereLights && !l.baked && InFrustum(camera, l))
              || (l in scene.pointLights && !l.baked && InFrustum(camera, l))
              || (l in scene.rangedDirLights && InFrustum(camera, l))
  {
    KeptMembers(ShadowedSpot, camera, scene.spotLights, l);
    KeptMembers(UnshadowedSpot, camera, scene.spotLights, l);
    KeptMembers(LocalLight, camera, scene.sphereLights, l);
    KeptMembers(LocalLight, camera, scene.pointLights, l);
    KeptMembers(RangedLight, camera, scene.rangedDirLights, l);
  }

  /**
   * A baked light is never kept unless it is (also) a ranged directional light, and a shadow
   * casting light is never in the unshadowed list unless it is not (only) a spot light.
   */
  lemma BakedAndShadowedLights(camera: Camera, scene: Scene, l: Light)
    ensures l.baked && l !in scene.rangedDirLights ==>
              l !in ShadowedSpots(camera, scene) && l !in CulledLights(camera, scene)
    ensures (l.shadowEnabled && l !in scene.sphereLights && l !in scene.pointLights
             && l !in scene.rangedDirLights) ==> l !in CulledLights(camera, scene)
  {
    CullPartition(camera, scene, l);
  }

  // ---------------------------------------------------------------- cascade viewports

  /**
   * `_fillCsmMainLightViewport`: the full atlas for a fixed-area or single-cascade light,
   * otherwise the half-size tile of `level` (column `level % 2`, row `level / 2`, rows counted
   * from the top when screen-space y points up), clamped to a non-negative corner and a
   * positive size. `Math.floor(level / 2)` is the integer quotient for the levels used.
   */
  function CsmViewport(light: MainLight, w: int, h: int, level: nat, signY: int): (v: Viewport)
    ensures v.left >= 0 && v.top >= 0 && v.width >= 1 && v.height >= 1
  {
    var raw :=
      if light.shadowFixedArea || light.csmLevel == 1 then
        Viewport(0, 0, Trunc(w as real), Trunc(h as real))
      else
        Viewport(
          Trunc(((level % 2) as real) * 0.5 * (w as real)),
          if signY > 0 then Trunc(((1 - level / 2) as real) * 0.5 * (h as real))
          else Trunc(((level / 2) as real) * 0.5 * (h as real)),
          Trunc(0.5 * (w as real)),
          Trunc(0.5 * (h as real)));
    Viewport(Max(0, raw.left), Max(0, raw.top), Max(1, raw.width), Max(1, raw.height))
  }

  /** `Math.trunc(0.5 * n)` is the integer half of a non-negative `n`. */
  lemma HalfTrunc(n: int)
    requires n >= 0
    ensures Trunc(0.5 * (n as real)) == n / 2
  {
    var q, r := n / 2, n % 2;
    assert n == 2 * q + r;
    assert 0.5 * (n as real) == (q as real) + 0.5 * (r as real);
  }

  /** `Math.trunc(n)` of a whole number is the number itself. */
  lemma WholeTrunc(n: int)
    requires n >= 0
    ensures Trunc(n as real) == n
  {
  }

  /** A fixed-area or single-cascade light draws every level onto the whole atlas. */
  lemma CsmFullAtlas(light: MainLight, w: int, h: int, level: nat, signY: int)
    requires light.shadowFixedArea || light.csmLevel == 1
    requires w >= 1 && h >= 1
    ensures CsmViewport(light, w, h, level, signY) == Viewport(0, 0, w, h)
  {
    WholeTrunc(w);
    WholeTrunc(h);
  }

  /** Otherwise level `level` gets the half-size tile in column `level % 2` and row `level / 2`. */
  lemma CsmTile(light: MainLight, w: int, h: int, level: nat, signY: int)
    requires !light.shadowFixedArea && light.csmLevel != 1
    requires level < 4 && w >= 2 && h >= 2
    ensures CsmViewport(light, w, h, level, signY) ==
              Viewport(if level % 2 == 0 then 0 else w / 2,
                       if (signY > 0) == (level / 2 == 0) then h / 2 else 0,
                       w / 2, h / 2)
  {
    HalfTrunc(w);
    HalfTrunc(h);
    assert level % 2 == 0 || level % 2 == 1;
    assert level / 2 == 0 || level / 2 == 1;
    if level % 2 == 0 {
      assert ((level % 2) as real) * 0.5 * (w as real) == 0.0;
    } else {
      assert ((level % 2) as real) * 0.5 * (w as real) == 0.5 * (w as real);
    }
    if level / 2 == 0 {
      assert ((level / 2) as real) * 0.5 * (h as real) == 0.0;
      assert ((1 - level / 2) as real) * 0.5 * (h as real) == 0.5 * (h as real);
    } else {
      assert ((level / 2) as real) * 0.5 * (h as real) == 0.5 * (h as real);
      assert ((1 - level / 2) as real) * 0.5 * (h as real) == 0.0;
    }
  }

  /** Every tile lies inside the atlas. */
  lemma CsmTileInside(light: MainLight, w: int, h: int, level: nat, signY: int)
    requires level < 4 && w >= 2 && h >= 2
    ensures var v := CsmViewport(light, w, h, level, signY);
            v.left + v.width <= w && v.top + v.height <= h
  {
    if light.shadowFixedArea || light.csmLevel == 1 {
      CsmFullAtlas(light, w, h, level, signY);
    } else {
      CsmTile(light, w, h, level, signY);
    }
  }

  /** The tiles of two different levels of a multi-cascade light do not overlap. */
  lemma CsmTilesDisjoint(light: MainLight, w: int, h: int, a: nat, b: nat, signY: int)
    requires !light.shadowFixedArea && light.csmLevel != 1
    requires a < 4 && b < 4 && a != b && w >= 2 && h >= 2
    ensures var va, vb := CsmViewport(light, w, h, a, signY), CsmViewport(light, w, h, b, signY);
            va.left + va.width <= vb.left || vb.left + vb.width <= va.left
            || va.top + va.height <= vb.top || vb.top + vb.height <= va.top
  {
    CsmTile(light, w, h, a, signY);
    CsmTile(light, w, h, b, signY);
  }

  // ---------------------------------------------------------------- passes

  /** The scene flags of a shadow-caster draw: OPAQUE | MASK | SHADOW_CASTER. */
  const CasterFlags: set<SceneFlag> := {SceneOpaque, SceneMask, SceneShadowCaster}

  /** `csmSupported ? light.csmLevel : 1`. */
  function CascadeCount(f: Frame, light: MainLight): (n: int)
    ensures 1 <= n <= 4
    ensures !f.features.csmSupported ==> n == 1
  {
    if f.features.csmSupported then light.csmLevel else 1
  }

  /** The shadow-caster queue of one cascade level; WebGPU gets no queue viewport. */
  function CascadeQueue(f: Frame, light: MainLight, level: nat): Queue {
    var size := f.features;
    Queue(HintNone, "shadow-caster", None,
          if size.isWebGPU then None
          else Some(CsmViewport(light, size.shadowMapWidth, size.shadowMapHeight, level, size.screenSpaceSignY)),
          [SceneDraw(f.cam.camera.id, CasterFlags, MainLightRef, LightFrustum(Some(level)))])
  }

  /** The queues of levels 0 to n - 1, in level order. */
  function CascadeQueues(f: Frame, light: MainLight, n: nat): (qs: seq<Queue>)
    ensures |qs| == n
    ensures forall k :: 0 <= k < n ==> qs[k] == CascadeQueue(f, light, k)
  {
    if n == 0 then [] else CascadeQueues(f, light, n - 1) + [CascadeQueue(f, light, n - 1)]
  }

  /** The cascaded shadow map pass before its queues: it clears the map to white and the depth. */
  function CascadeBase(f: Frame): Pass {
    NewPass("cascadedShadowMap", "default", f.features.shadowMapWidth, f.features.shadowMapHeight)
      .(targets := [Attachment(ShadowMap(Id(f)), Clear, Store, ClearWhite)],
        depthStencil := Some(Attachment(ShadowDepth(Id(f)), Clear, StoreOp.Discard, DefaultDepthClear)))
  }

  /** `_addCascadedShadowMapPass`: the pass with one shadow-caster queue per cascade level. */
  function CascadePass(f: Frame, light: MainLight): (p: Pass)
    ensures |p.queues| == CascadeCount(f, light)
    ensures forall k :: 0 <= k < |p.queues| ==>
              p.queues[k].draws == [SceneDraw(f.cam.camera.id, CasterFlags, MainLightRef, LightFrustum(Some(k)))]
    ensures Written(p) == {ShadowMap(Id(f)), ShadowDepth(Id(f))}
  {
    var p := CascadeBase(f).(queues := CascadeQueues(f, light, CascadeCount(f, light)));
    assert Written(p) == {ShadowMap(Id(f)), ShadowDepth(Id(f))} by {
      assert (set k | 0 <= k < |p.targets| :: p.targets[k].name) == {ShadowMap(Id(f))} by {
        assert p.targets[0].name == ShadowMap(Id(f));
      }
    }
    p
  }

  /** What a spot shadow pass takes from the frame: the camera it draws for and the map size. */
  datatype ShadowView = ShadowView(camera: nat, width: int, height: int)

  function ViewOf(f: Frame): ShadowView {
    ShadowView(f.cam.camera.id, f.features.shadowMapWidth, f.features.shadowMapHeight)
  }

  /** The shadow pass of the `i`-th shadow-casting spot light. */
  function SpotPass(v: ShadowView, light: Light, i: nat): Pass {
    Pass(Prefixed(SpotShadowPassPrefix, i), "default", v.width, v.height, 1, None,
         [Attachment(SpotShadowMap(i), Clear, Store, ClearWhite)],
         Some(Attachment(SpotShadowDepth(i), Clear, StoreOp.Discard, DefaultDepthClear)),
         [], [Queue(HintNone, "shadow-caster", None, None,
                    [SceneDraw(v.camera, CasterFlags, SceneLight(light.id), LightFrustum(None))])],
         [], [], false)
  }

  /** The `i`-th spot shadow pass writes the map and depth of slot `i` and nothing else. */
  lemma SpotPassWrites(v: ShadowView, light: Light, i: nat)
    ensures Written(SpotPass(v, light, i)) == {SpotShadowMap(i), SpotShadowDepth(i)}
  {
    var p := SpotPass(v, light, i);
    assert (set k | 0 <= k < |p.targets| :: p.targets[k].name) == {SpotShadowMap(i)} by {
      assert p.targets[0].name == SpotShadowMap(i);
    }
  }

  /** The passes of the first `n` shadow-casting spot lights, in list order. */
  function SpotPasses(v: ShadowView, spots: seq<Light>, n: nat): (ps: seq<Pass>)
    requires n <= |spots|
    ensures |ps| == n
  {
    if n == 0 then [] else SpotPasses(v, spots, n - 1) + [SpotPass(v, spots[n - 1], n - 1)]
  }

  /** Pass `k` of the list is the pass of the `k`-th light. */
  lemma {:induction false} SpotPassesAt(v: ShadowView, spots: seq<Light>, n: nat, k: nat)
    requires k < n <= |spots|
    ensures SpotPasses(v, spots, n)[k] == SpotPass(v, spots[k], k)
  {
    if k < n - 1 {
      SpotPassesAt(v, spots, n - 1, k);
    }
  }

  /** How many spot shadow passes `_addSpotlightShadowPasses` adds: none when the cap is not positive. */
  function SpotPassCount(n: nat, maxNum: int): (c: nat)
    ensures c <= n
    ensures maxNum <= 0 ==> c == 0
    ensures maxNum > 0 ==> c == Min(n, maxNum)
  {
    if maxNum <= 0 then 0 else Min(n, maxNum)
  }

  /** Everything `setup` adds for a camera with a scene, after culling. */
  function ShadowPasses(f: Frame, spots: seq<Light>, maxNum: int): seq<Pass> {
    (if f.cam.flags.mainLightShadowMapEnabled && MainLightCastsShadows(f.cam.camera)
     then [CascadePass(f, f.cam.camera.scene.value.mainLight.value)] else [])
    + SpotPasses(ViewOf(f), spots, SpotPassCount(|spots|, maxNum))
  }

  /** The `g_platform` global after `fillPlatformVec4` on a vector holding `y` and `z`. */
  function PlatformGlobal(features: FeatureSet, y: real, z: real): Global {
    Global("g_platform", features.platformX, y, z, features.platformW as real)
  }

  /** `windowResize`: the main light's map and depth, then one map and depth per spot slot. */
  function ShadowResources(f: Frame, slots: nat): (rs: seq<Resource>)
    ensures |rs| == 2 + 2 * slots
  {
    MainShadowResources(f) + SpotResources(f, slots)
  }

  /** The main light's shadow map and its depth. */
  function MainShadowResources(f: Frame): (rs: seq<Resource>)
    ensures |rs| == 2
  {
    [Resource(RenderTargetResource, ShadowMap(Id(f)), f.cam.flags.shadowMapFormat,
              f.features.shadowMapWidth, f.features.shadowMapHeight, Managed),
     Resource(DepthStencilResource, ShadowDepth(Id(f)), DepthStencilFormat,
              f.features.shadowMapWidth, f.features.shadowMapHeight, Managed)]
  }

  /** The map and depth of spot slots 0 to n - 1, in slot order. */
  function SpotResources(f: Frame, n: nat): (rs: seq<Resource>)
    ensures |rs| == 2 * n
  {
    if n == 0 then [] else SpotResources(f, n - 1) + SpotSlot(f, n - 1)
  }

  /** The map and depth of spot slot `i`. */
  function SpotSlot(f: Frame, i: nat): (rs: seq<Resource>)
    ensures |rs| == 2
  {
    [Resource(RenderTargetResource, SpotShadowMap(i), f.features.shadowMapFormat,
              f.features.shadowMapWidth, f.features.shadowMapHeight, Managed),
     Resource(DepthStencilResource, SpotShadowDepth(i), DepthStencilFormat,
              f.features.shadowMapWidth, f.features.shadowMapHeight, Managed)]
  }

  /** Entries `2 i` and `2 i + 1` of the slot list are the map and depth of slot `i`. */
  lemma {:induction false} SpotResourcesAt(f: Frame, n: nat, i: nat)
    requires i < n
    ensures SpotResources(f, n)[2 * i] == SpotSlot(f, i)[0]
    ensures SpotResources(f, n)[2 * i + 1] == SpotSlot(f, i)[1]
  {
    var init := SpotResources(f, n - 1);
    assert SpotResources(f, n) == init + SpotSlot(f, n - 1);
    if i < n - 1 {
      SpotResourcesAt(f, n - 1, i);
    } else {
      AppendIndex(init, SpotSlot(f, n - 1), 2 * i);
      AppendIndex(init, SpotSlot(f, n - 1), 2 * i + 1);
    }
  }

  /** Spot shadow pass `k` writes exactly the map and depth of slot `k`. */
  lemma SpotPassTargets(f: Frame, spots: seq<Light>, maxNum: nat, k: nat)
    requires k < SpotPassCount(|spots|, maxNum)
    ensures Written(SpotPasses(ViewOf(f), spots, SpotPassCount(|spots|, maxNum))[k])
            == {SpotShadowMap(k), SpotShadowDepth(k)}
  {
    SpotPassesAt(ViewOf(f), spots, SpotPassCount(|spots|, maxNum), k);
    SpotPassWrites(ViewOf(f), spots[k], k);
  }

  /**
   * `windowResize` with the same cap declared the map and depth of every slot a spot shadow pass
   * writes: the passes never outnumber the declared slots.
   */
  lemma SpotTargetsDeclared(f: Frame, n: nat, maxNum: nat, k: nat)
    requires k < SpotPassCount(n, maxNum)
    ensures ShadowResources(f, maxNum)[2 + 2 * k].name == SpotShadowMap(k)
    ensures ShadowResources(f, maxNum)[3 + 2 * k].name == SpotShadowDepth(k)
  {
    var main, spot := MainShadowResources(f), SpotResources(f, maxNum);
    assert ShadowResources(f, maxNum) == main + spot;
    AppendIndex(main, spot, 2 + 2 * k);
    AppendIndex(main, spot, 3 + 2 * k);
    SpotResourcesAt(f, maxNum, k);
  }

  /**
   * With the cap `windowResize` used, every shadow pass `setup` adds writes a map and depth that
   * `windowResize` declared: the main light's pair or the pair of the pass's own spot slot.
   */
  lemma ShadowWritesDeclared(f: Frame, spots: seq<Light>, maxNum: nat)
    ensures WritesWithin(ShadowPasses(f, spots, maxNum), DeclaredNames(ShadowResources(f, maxNum)))
  {
    var rs := ShadowResources(f, maxNum);
    var names := DeclaredNames(rs);
    var n := SpotPassCount(|spots|, maxNum);
    var cascade := if f.cam.flags.mainLightShadowMapEnabled && MainLightCastsShadows(f.cam.camera)
                   then [CascadePass(f, f.cam.camera.scene.value.mainLight.value)] else [];
    assert rs[0].name == ShadowMap(Id(f)) && rs[1].name == ShadowDepth(Id(f));
    forall k | 0 <= k < n
      ensures Written(SpotPasses(ViewOf(f), spots, n)[k]) <= names
    {
      SpotPassTargets(f, spots, maxNum, k);
      SpotTargetsDeclared(f, |spots|, maxNum, k);
    }
    WritesWithinConcat(cascade, SpotPasses(ViewOf(f), spots, n), names);
  }

  lemma AppendIndex<T>(a: seq<T>, b: seq<T>, i: nat)
    requires |a| <= i < |a| + |b|
    ensures (a + b)[i] == b[i - |a|]
  {
  }

  class ShadowPassBuilder {
    /** `_lights`: the culled lights without a spot shadow. */
    var lights: seq<Light>
    /** `_shadowEnabledSpotLights`. */
    var spotLights: seq<Light>
    /** `_platform`, the vector `fillPlatformVec4` writes into. */
    const platform: Vec4

    constructor ()
      ensures lights == [] && spotLights == [] && fresh(platform)
      ensures platform.x == 0.0 && platform.y == 0.0 && platform.z == 0.0 && platform.w == 0.0
    {
      lights := [];
      spotLights := [];
      platform := new Vec4(0.0, 0.0, 0.0, 0.0);
    }

    /** `windowResize`: declares the main light's shadow map and depth and `count` spot slots. */
    method WindowResize(rec: Recorder, f: Frame, pf: PipelineFeatures)
      modifies rec
      ensures rec.log == old(rec.log).(resources := old(rec.log.resources)
                                         + ShadowResources(f, pf.mobileMaxSpotLightShadowMaps))
    {
      var width, height := f.features.shadowMapWidth, f.features.shadowMapHeight;
      rec.Declare(Resource(RenderTargetResource, ShadowMap(Id(f)), f.cam.flags.shadowMapFormat, width, height, Managed));
      rec.Declare(Resource(DepthStencilResource, ShadowDepth(Id(f)), DepthStencilFormat, width, height, Managed));
      ghost var log0 := rec.log;
      var count := pf.mobileMaxSpotLightShadowMaps;
      for i := 0 to count
        invariant rec.log == log0.(resources := log0.resources + SpotResources(f, i))
      {
        rec.Declare(Resource(RenderTargetResource, SpotShadowMap(i), f.features.shadowMapFormat, width, height, Managed));
        rec.Declare(Resource(DepthStencilResource, SpotShadowDepth(i), DepthStencilFormat, width, height, Managed));
      }
    }

    /** `_cullLights` without a camera position, so without the distance sort. */
    method CullLights(camera: Camera, scene: Scene)
      modifies this
      ensures spotLights == ShadowedSpots(camera, scene)
      ensures lights == CulledLights(camera, scene)
    {
      lights := [];
      spotLights := [];
      CullSpotLights(camera, scene.spotLights);
      KeepLights(LocalLight, camera, scene.sphereLights);
      KeepLights(LocalLight, camera, scene.pointLights);
      KeepLights(RangedLight, camera, scene.rangedDirLights);
    }

    /** The spot-light loop of `_cullLights`: visible unbaked spots go to one of the two lists. */
    method CullSpotLights(camera: Camera, spots: seq<Light>)
      modifies this
      ensures spotLights == old(spotLights) + Kept(ShadowedSpot, camera, spots)
      ensures lights == old(lights) + Kept(UnshadowedSpot, camera, spots)
    {
      var i := 0;
      while i < |spots|
        invariant 0 <= i <= |spots|
        invariant spotLights == old(spotLights) + Kept(ShadowedSpot, camera, spots[..i])
        invariant lights == old(lights) + Kept(UnshadowedSpot, camera, spots[..i])
      {
        var light := spots[i];
        assert spots[..i + 1][..i] == spots[..i];
        if !light.baked && InFrustum(camera, light) {
          if light.shadowEnabled {
            spotLights := spotLights + [light];
          } else {
            lights := lights + [light];
          }
        }
        i := i + 1;
      }
      assert spots[..i] == spots;
    }

    /**
     * The sphere-, point- and ranged-light loops of `_cullLights`: each pushes the lights its
     * test accepts onto `lights`.
     */
    method KeepLights(rule: CullRule, camera: Camera, s: seq<Light>)
      modifies this
      ensures lights == old(lights) + Kept(rule, camera, s)
      ensures spotLights == old(spotLights)
    {
      var i := 0;
      while i < |s|
        invariant 0 <= i <= |s|
        invariant spotLights == old(spotLights)
        invariant lights == old(lights) + Kept(rule, camera, s[..i])
      {
        var light := s[i];
        assert s[..i + 1][..i] == s[..i];
        if Accepts(rule, camera, light) {
          lights := lights + [light];
        }
        i := i + 1;
      }
      assert s[..i] == s;
    }

    /** `_addCascadedShadowMapPass`: adds the pass, then its queues level by level. */
    method AddCascadedShadowMapPass(rec: Recorder, f: Frame, light: MainLight)
      modifies rec
      ensures rec.log == old(rec.log).(passes := old(rec.log.passes) + [CascadePass(f, light)])
    {
      var h := rec.AddPass(CascadeBase(f));
      ghost var before := old(rec.log.passes);
      var csmLevel := CascadeCount(f, light);
      for level := 0 to csmLevel
        invariant rec.log == old(rec.log).(passes := before + [CascadeBase(f).(queues := CascadeQueues(f, light, level))])
      {
        rec.AddQueue(h, CascadeQueue(f, light, level));
        assert CascadeQueues(f, light, level + 1) == CascadeQueues(f, light, level) + [CascadeQueue(f, light, level)];
      }
    }

    /** `_addSpotlightShadowPasses`: one pass per shadow-casting spot light, stopping at the cap. */
    method AddSpotlightShadowPasses(rec: Recorder, view: ShadowView, maxNum: int)
      modifies rec
      ensures rec.log == old(rec.log).(passes := old(rec.log.passes)
                                      + SpotPasses(view, spotLights, SpotPassCount(|spotLights|, maxNum)))
    {
      if maxNum <= 0 {
        return;
      }
      var spots := spotLights;
      var i := 0;
      while i < |spots|
        invariant 0 <= i <= |spots| && i < maxNum
        invariant rec.log == old(rec.log).(passes := old(rec.log.passes) + SpotPasses(view, spots, i))
      {
        var pass := SpotPass(view, spots[i], i);
        assert SpotPasses(view, spots, i + 1) == SpotPasses(view, spots, i) + [pass];
        var h := rec.AddPass(pass);
        i := i + 1;
        if i >= maxNum {
          break;
        }
      }
      assert i == SpotPassCount(|spots|, maxNum);
    }

    /**
     * `setup`: with no scene nothing happens; otherwise the platform global is set, the lights
     * are culled and the cascade and spot shadow passes are added. The previous pass is always
     * handed on unchanged. Of the camera's flags only one consequence of their derivation is
     * needed: the main light shadow map is enabled only for a shadow-casting main light.
     */
    method Setup(rec: Recorder, f: Frame, pf: PipelineFeatures, prev: Option<nat>) returns (r: Option<nat>)
      requires pf.flags == f.features
      requires f.cam.flags.mainLightShadowMapEnabled ==> MainLightCastsShadows(f.cam.camera)
      modifies this, platform, rec
      ensures r == prev
      ensures f.cam.camera.scene.None? ==>
                rec.log == old(rec.log) && lights == old(lights) && spotLights == old(spotLights)
                && unchanged(platform)
      ensures f.cam.camera.scene.Some? ==>
                var scene := f.cam.camera.scene.value;
                spotLights == ShadowedSpots(f.cam.camera, scene)
                && lights == CulledLights(f.cam.camera, scene)
                && platform.x == f.features.platformX && platform.w == f.features.platformW as real
                && platform.y == old(platform.y) && platform.z == old(platform.z)
                && rec.log == old(rec.log).(
                     globals := old(rec.log.globals) + [PlatformGlobal(f.features, old(platform.y), old(platform.z))],
                     passes := old(rec.log.passes)
                               + ShadowPasses(f, spotLights, pf.mobileMaxSpotLightShadowMaps))
    {
      if f.cam.camera.scene.None? {
        return prev;
      }
      var scene := f.cam.camera.scene.value;
      var v := pf.FillPlatformVec4(platform);
      rec.SetVec4(Global("g_platform", v.x, v.y, v.z, v.w));
      CullLights(f.cam.camera, scene);
      AddShadowPasses(rec, f, pf.mobileMaxSpotLightShadowMaps);
      return prev;
    }

    /** The two conditional steps that end `setup`: the cascaded map, then the spot light maps. */
    method AddShadowPasses(rec: Recorder, f: Frame, maxNum: int)
      requires f.cam.flags.mainLightShadowMapEnabled ==> MainLightCastsShadows(f.cam.camera)
      modifies rec
      ensures rec.log == old(rec.log).(passes := old(rec.log.passes) + ShadowPasses(f, spotLights, maxNum))
    {
      ghost var cascades: seq<Pass> := [];
      if f.cam.flags.mainLightShadowMapEnabled {
        AddCascadedShadowMapPass(rec, f, f.cam.camera.scene.value.mainLight.value);
        cascades := [CascadePass(f, f.cam.camera.scene.value.mainLight.value)];
      }
      ghost var cascaded := rec.log;
      if |spotLights| > 0 {
        AddSpotlightShadowPasses(rec, ViewOf(f), maxNum);
      }
      assert rec.log == cascaded.(passes := cascaded.passes
                                  + SpotPasses(ViewOf(f), spotLights, SpotPassCount(|spotLights|, maxNum)));
      assert cascades + SpotPasses(ViewOf(f), spotLights, SpotPassCount(|spotLights|, maxNum))
             == ShadowPasses(f, spotLights, maxNum);
    }
  }
}
