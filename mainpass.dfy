/**
 * xq-mainpass.ts: the forward pass. `windowResize` declares the offscreen radiance target and
 * depth-stencil the camera needs and, with MSAA, the transient multisample buffers; `setup`
 * first renders the reflection probes, then hands on the colour and depth-stencil names the
 * later builders use and records the forward pass: the main light's opaque queue, one additive
 * queue per culled local light and per shadowed spot light, the planar shadow queue and the
 * transparent queue.
 */
module MainPass {
  import opened Wrappers
  import opened Host
  import opened RenderGraph
  import opened Names
  import opened Cameras
  import opened Contexts
  import opened Features
  import ShadowPass
  import PostPass

  const RenderOrder: int := 300

  /** `maxProbeCount`: at most this many probes are rendered per camera. */
  const MaxProbeCount: nat := 4

  // ---------------------------------------------------------------------------------------
  // Offscreen targets
  // ---------------------------------------------------------------------------------------

  /** `enableShadingScale`: scaling is on and the camera's scale is not 1. */
  predicate ShadingScaled(f: Frame) {
    f.settings.enableShadingScale && f.cam.size.shadingScale != 1.0
  }

  /**
   * `needOffscreen`: post-processing (HDR or an active colour grading), a shading scale, or
   * MSAA, which needs an offscreen resolve target.
   */
  predicate NeedOffscreen(f: Frame) {
    f.cam.flags.hdrEnabled || PostPass.ColorGradingActive(f.settings) || ShadingScaled(f)
    || f.cam.flags.msaaEnabled
  }

  /** The colour name `setup` hands on and the forward pass renders into. */
  function MainColor(f: Frame): string {
    if !NeedOffscreen(f) then WindowColor(Id(f))
    else if ShadingScaled(f) then ScaledRadianceColor(Id(f))
    else RadianceColor(Id(f))
  }

  /** The depth-stencil name `setup` hands on. */
  function MainDepth(f: Frame): string {
    if !NeedOffscreen(f) then WindowDepthStencil(Id(f))
    else if ShadingScaled(f) then ScaledDepthStencil(Id(f))
    else DepthStencil(Id(f))
  }

  /** The multisample colour buffer: the radiance format with HDR, RGBA8 otherwise. */
  function MsaaColorFormat(flags: CameraFlags): Format {
    if flags.hdrEnabled then flags.radianceFormat else RGBA8
  }

  /** `windowResize`: what is declared, in declaration order, all at the camera size. */
  function MainResources(f: Frame): seq<Resource> {
    var w, h, samples := f.cam.size.width, f.cam.size.height, f.settings.msaa.sampleCount;
    (if NeedOffscreen(f)
     then [Resource(RenderTargetResource, MainColor(f), f.cam.flags.radianceFormat, w, h, Managed),
           Resource(DepthStencilResource, MainDepth(f), DepthStencilFormat, w, h, Managed)]
     else [])
    + (if f.cam.flags.msaaEnabled
       then [Resource(TextureResource(samples, ColorAttachment), MsaaRadiance(Id(f)),
                      MsaaColorFormat(f.cam.flags), w, h, Memoryless),
             Resource(TextureResource(samples, DepthStencilAttachment), MsaaDepthStencil(Id(f)),
                      DepthStencilFormat, w, h, Memoryless)]
       else [])
  }

  /**
   * The names handed on are the window's own exactly when the camera renders on screen;
   * otherwise both are declared by `windowResize`, the colour as a render target in the
   * radiance format and the depth as a depth-stencil, scaled exactly when shading is scaled.
   */
  lemma HandedNamesDeclared(f: Frame)
    ensures MainColor(f) == WindowColor(Id(f)) <==> !NeedOffscreen(f)
    ensures MainDepth(f) == WindowDepthStencil(Id(f)) <==> !NeedOffscreen(f)
    ensures NeedOffscreen(f) ==>
              (MainColor(f) == ScaledRadianceColor(Id(f)) <==> ShadingScaled(f))
              && (MainDepth(f) == ScaledDepthStencil(Id(f)) <==> ShadingScaled(f))
              && Resource(RenderTargetResource, MainColor(f), f.cam.flags.radianceFormat,
                          f.cam.size.width, f.cam.size.height, Managed) in MainResources(f)
              && Resource(DepthStencilResource, MainDepth(f), DepthStencilFormat,
                          f.cam.size.width, f.cam.size.height, Managed) in MainResources(f)
  {
    var id := Id(f);
    CameraNamesDistinct(0, 2, id, id);
    CameraNamesDistinct(0, 4, id, id);
    CameraNamesDistinct(1, 3, id, id);
    CameraNamesDistinct(1, 5, id, id);
    CameraNamesDistinct(2, 4, id, id);
    CameraNamesDistinct(3, 5, id, id);
    var rs := MainResources(f);
    if NeedOffscreen(f) {
      assert rs[0] in rs && rs[1] in rs;
    }
  }

  /**
   * With MSAA the camera renders off screen, and `windowResize` declares the two multisample
   * buffers as transient textures with the configured sample count; without MSAA it declares
   * no texture at all.
   */
  lemma MsaaBuffersDeclared(f: Frame)
    ensures f.cam.flags.msaaEnabled ==>
              NeedOffscreen(f)
              && Resource(TextureResource(f.settings.msaa.sampleCount, ColorAttachment), MsaaRadiance(Id(f)),
                          MsaaColorFormat(f.cam.flags), f.cam.size.width, f.cam.size.height, Memoryless)
                 in MainResources(f)
              && Resource(TextureResource(f.settings.msaa.sampleCount, DepthStencilAttachment),
                          MsaaDepthStencil(Id(f)), DepthStencilFormat, f.cam.size.width, f.cam.size.height,
                          Memoryless) in MainResources(f)
    ensures !f.cam.flags.msaaEnabled ==>
              forall r :: r in MainResources(f) ==> !r.kind.TextureResource?
  {
    var rs := MainResources(f);
    if f.cam.flags.msaaEnabled {
      assert rs[|rs| - 2] in rs && rs[|rs| - 1] in rs;
    }
  }

  // ---------------------------------------------------------------------------------------
  // The forward pass
  // ---------------------------------------------------------------------------------------

  /** What the forward pass reads of the frame. */
  datatype ForwardView = ForwardView(camera: Camera, id: nat, width: int, height: int,
                                     viewport: Viewport, sampleCount: int, flags: CameraFlags)

  function ForwardViewOf(f: Frame): ForwardView {
    ForwardView(f.cam.camera, Id(f), f.cam.size.width, f.cam.size.height, FillViewport(f.cam),
                f.settings.msaa.sampleCount, f.cam.flags)
  }

  /** A colour attachment: cleared to `clear` when the camera clears its colour, loaded otherwise. */
  function ColorTarget(needClear: bool, name: string, store: StoreOp, clear: ClearValue): Attachment {
    if needClear then Attachment(name, Clear, store, clear) else Attachment(name, Load, store, NoClearValue)
  }

  /**
   * A depth-stencil attachment: cleared to `camera`'s depth, stencil and depth-stencil clear
   * bits when asked to, loaded otherwise.
   */
  function DepthTarget(needClear: bool, camera: Camera, name: string, store: StoreOp): Attachment {
    if needClear
    then Attachment(name, Clear, store,
                    ClearDepthStencil(camera.clearDepth, camera.clearStencil, camera.clearFlag * DepthStencilBits))
    else Attachment(name, Load, store, DefaultDepthClear)
  }

  /**
   * The pass `_addForwardSingleRadiancePass` adds, with what `_buildForwardMainLightPass` puts on
   * it before its queue: with MSAA, a multisample pass on the multisample buffers that discards
   * both and resolves its colour into `color`; otherwise a single-sample pass on `color` and
   * `ds`. The cascaded shadow map is bound when the main light's shadow map is enabled and the
   * shadow builder kept a local light (`hasLights`).
   */
  function ForwardBase(v: ForwardView, color: string, ds: string, dsStore: StoreOp, hasLights: bool): Pass {
    var msaa := v.flags.msaaEnabled;
    Pass(if msaa then "msaaForwardPass" else "forwardPass", "default", v.width, v.height,
         if msaa then v.sampleCount else 1, Some(v.viewport),
         [ColorTarget(NeedClearColor(v.camera), if msaa then MsaaRadiance(v.id) else color,
                      if msaa then StoreOp.Discard else Store, ClearCameraColor(v.camera.id))],
         Some(DepthTarget(NeedDepthStencil(v.camera), v.camera, if msaa then MsaaDepthStencil(v.id) else ds,
                          if msaa then StoreOp.Discard else dsStore)),
         if v.flags.mainLightShadowMapEnabled && hasLights then [Binding(ShadowMap(v.id), "cc_shadowMap")] else [],
         [], if msaa then [Resolve(MsaaRadiance(v.id), color)] else [], [], false)
  }

  /** The main light's queue: opaque and masked objects lit by the main light. */
  function MainLightQueue(camera: Camera): Queue {
    Queue(HintNone, "default", None, None,
          [SceneDraw(camera.id, {SceneOpaque, SceneMask}, MainLightOf(camera), CameraFrustum)])
  }

  /** The console warning of `_buildForwardMainLightPass` in debug builds. */
  function ForwardWarnings(debug: bool, v: ForwardView, color: string, ds: string): seq<Warning> {
    if debug && !v.flags.msaaEnabled && color == WindowColor(v.id) && ds != WindowDepthStencil(v.id)
    then [CustomDepthOnWindow] else []
  }

  /** The name `_addLightQueues` gives the queue of a light of this type. */
  function LightQueueName(kind: LightKind): string {
    match kind
    case Sphere => "sphere-light"
    case Spot => "spot-light"
    case Point => "point-light"
    case RangedDirectional => "ranged-directional-light"
    case _ => "unknown-light"
  }

  /**
   * The additive queue of one local light: a `forward-add` queue of its transparent-pass objects
   * lit by it, renamed after the light's type.
   */
  function LightQueue(camera: nat, light: Light): Queue {
    Queue(HintBlend, "forward-add", Some(LightQueueName(light.kind)), None,
          [SceneDraw(camera, {SceneBlend}, SceneLight(light.id), CameraFrustum)])
  }

  /** The queues of the first `n` lights, in order. */
  function LightQueues(camera: nat, lights: seq<Light>, n: nat): (qs: seq<Queue>)
    requires n <= |lights|
    ensures |qs| == n
  {
    if n == 0 then [] else LightQueues(camera, lights, n - 1) + [LightQueue(camera, lights[n - 1])]
  }

  /**
   * The `k`-th light queue belongs to the `k`-th light: a BLEND `forward-add` queue drawing the
   * camera's blended objects lit by that light, named after the light's type.
   */
  lemma {:induction false} LightQueuesAt(camera: nat, lights: seq<Light>, n: nat, k: nat)
    requires k < n <= |lights|
    ensures LightQueues(camera, lights, n)[k] == LightQueue(camera, lights[k])
    ensures LightQueues(camera, lights, n)[k].hint == HintBlend
    ensures LightQueues(camera, lights, n)[k].phase == "forward-add"
    ensures LightQueues(camera, lights, n)[k].debugName == Some(LightQueueName(lights[k].kind))
    ensures LightQueues(camera, lights, n)[k].draws
              == [SceneDraw(camera, {SceneBlend}, SceneLight(lights[k].id), CameraFrustum)]
  {
    if k < n - 1 {
      LightQueuesAt(camera, lights, n - 1, k);
    }
  }

  /**
   * How many spot lights the forward pass adds: the cap is compared only after a light has been
   * added, so a non-empty list always gives at least one; from a cap of 1 upward this is the
   * number of spot shadow passes the shadow builder records.
   */
  function MainSpotCount(n: nat, maxNum: int): (c: nat)
    ensures c <= n && (n > 0 ==> c >= 1)
    ensures maxNum >= 1 ==> c == ShadowPass.SpotPassCount(n, maxNum)
    ensures maxNum <= 0 ==> c == Min(n, 1)
  {
    if n == 0 then 0 else Min(n, Max(maxNum, 1))
  }

  /** The spot shadow maps the forward pass samples, one per added spot light. */
  function SpotBindings(n: nat): (bs: seq<Binding>)
    ensures |bs| == n
  {
    if n == 0 then [] else SpotBindings(n - 1) + [Binding(SpotShadowMap(n - 1), "cc_spotShadowMap")]
  }

  /** The additive `forward-add` queue of a shadowed spot light. */
  function SpotQueue(camera: nat, light: Light): Queue {
    Queue(HintBlend, "forward-add", None, None, [SceneDraw(camera, {SceneBlend}, SceneLight(light.id), CameraFrustum)])
  }

  function SpotQueues(camera: nat, spots: seq<Light>, n: nat): (qs: seq<Queue>)
    requires n <= |spots|
    ensures |qs| == n
  {
    if n == 0 then [] else SpotQueues(camera, spots, n - 1) + [SpotQueue(camera, spots[n - 1])]
  }

  /** The `k`-th spot binding samples the `k`-th slot's map. */
  lemma {:induction false} SpotBindingsAt(n: nat, k: nat)
    requires k < n
    ensures SpotBindings(n)[k] == Binding(SpotShadowMap(k), "cc_spotShadowMap")
  {
    if k < n - 1 {
      SpotBindingsAt(n - 1, k);
    }
  }

  /** The `k`-th spot queue is lit by the `k`-th shadowed spot light. */
  lemma {:induction false} SpotQueuesAt(camera: nat, spots: seq<Light>, n: nat, k: nat)
    requires k < n <= |spots|
    ensures SpotQueues(camera, spots, n)[k] == SpotQueue(camera, spots[k])
  {
    if k < n - 1 {
      SpotQueuesAt(camera, spots, n - 1, k);
    }
  }

  /** `_addForwardSingleRadiancePass`: the base pass, its main light queue, then the lights. */
  function ForwardRadiancePass(v: ForwardView, color: string, ds: string, dsStore: StoreOp,
                               lights: seq<Light>, spots: seq<Light>, maxNum: int): Pass {
    var base := ForwardBase(v, color, ds, dsStore, |lights| > 0);
    var n := MainSpotCount(|spots|, maxNum);
    base.(textures := base.textures + SpotBindings(n),
          queues := [MainLightQueue(v.camera)] + LightQueues(v.camera.id, lights, |lights|)
                    + SpotQueues(v.camera.id, spots, n))
  }

  /** The planar shadow queue: shadow casters drawn as planar shadows of the main light. */
  function PlanarShadowQueue(camera: Camera): Queue {
    Queue(HintBlend, "planar-shadow", None, None,
          [SceneDraw(camera.id, {SceneShadowCaster, ScenePlanarShadow, SceneBlend}, MainLightOf(camera), CameraFrustum)])
  }

  /** The transparent queue; it also draws the geometry renderer's output when the camera has one. */
  function BlendQueue(camera: Camera): Queue {
    Queue(HintBlend, "default", None, None,
          [SceneDraw(camera.id, {SceneBlend} + (if camera.hasGeometryRenderer then {SceneGeometry} else {}),
                     MainLightOf(camera), CameraFrustum)])
  }

  /** The queues `setup` adds after `_addForwardSingleRadiancePass`. */
  function TailQueues(v: ForwardView): seq<Queue> {
    (if v.flags.mainLightPlanarShadowMapEnabled then [PlanarShadowQueue(v.camera)] else [])
    + [BlendQueue(v.camera)]
  }

  /** The forward pass as `setup` leaves it. */
  function ForwardPass(v: ForwardView, color: string, ds: string,
                       lights: seq<Light>, spots: seq<Light>, maxNum: int): Pass {
    var p := ForwardRadiancePass(v, color, ds, StoreOp.Discard, lights, spots, maxNum);
    p.(queues := p.queues + TailQueues(v))
  }

  /**
   * With MSAA the forward pass renders the multisample buffers at the configured sample count,
   * discards both, and resolves the multisample colour into the colour handed to it; without
   * MSAA it is a single-sample pass that stores that colour, uses the given depth-stencil with
   * the given store operation, and resolves nothing.
   */
  lemma ForwardAttachments(v: ForwardView, color: string, ds: string, dsStore: StoreOp,
                           lights: seq<Light>, spots: seq<Light>, maxNum: int)
    ensures var p := ForwardRadiancePass(v, color, ds, dsStore, lights, spots, maxNum);
            |p.targets| == 1 && p.depthStencil.Some?
            && (v.flags.msaaEnabled ==>
                  p.name == "msaaForwardPass" && p.samples == v.sampleCount
                  && p.targets[0].name == MsaaRadiance(v.id) && p.targets[0].store == StoreOp.Discard
                  && p.depthStencil.value.name == MsaaDepthStencil(v.id)
                  && p.depthStencil.value.store == StoreOp.Discard
                  && p.resolves == [Resolve(MsaaRadiance(v.id), color)])
            && (!v.flags.msaaEnabled ==>
                  p.name == "forwardPass" && p.samples == 1
                  && p.targets[0].name == color && p.targets[0].store == Store
                  && p.depthStencil.value.name == ds && p.depthStencil.value.store == dsStore
                  && p.resolves == [])
            && (p.targets[0].load == Clear <==> NeedClearColor(v.camera))
            && (p.depthStencil.value.load == Clear <==> NeedDepthStencil(v.camera))
  {
  }

  /**
   * The forward pass `setup` adds writes, and resolves into, only names `windowResize` declared
   * or the window's own colour and depth-stencil.
   */
  lemma ForwardWritesDeclared(f: Frame, lights: seq<Light>, spots: seq<Light>, maxNum: int)
    ensures var p := ForwardPass(ForwardViewOf(f), MainColor(f), MainDepth(f), lights, spots, maxNum);
            var names := DeclaredNames(MainResources(f)) + {WindowColor(Id(f)), WindowDepthStencil(Id(f))};
            Written(p) <= names && forall k :: 0 <= k < |p.resolves| ==> p.resolves[k].target in names
  {
    var v := ForwardViewOf(f);
    ForwardAttachments(v, MainColor(f), MainDepth(f), StoreOp.Discard, lights, spots, maxNum);
    HandedNamesDeclared(f);
    MsaaBuffersDeclared(f);
    var p := ForwardRadiancePass(v, MainColor(f), MainDepth(f), StoreOp.Discard, lights, spots, maxNum);
    assert Written(p) == {p.targets[0].name, p.depthStencil.value.name} by {
      assert (set k | 0 <= k < |p.targets| :: p.targets[k].name) == {p.targets[0].name};
    }
  }

  /** The names of the first `n` spot shadow maps. */
  function SpotMapNames(n: nat): set<string> {
    set k | 0 <= k < n :: SpotShadowMap(k)
  }

  /**
   * A pass whose textures are an optional cascaded shadow map followed by the first `n` spot
   * bindings samples exactly those maps, and the cascaded map is not one of the spot maps.
   */
  lemma SampledMaps(p: Pass, head: seq<Binding>, id: nat, n: nat)
    requires head == [] || head == [Binding(ShadowMap(id), "cc_shadowMap")]
    requires p.textures == head + SpotBindings(n)
    ensures Sampled(p) == (if head == [] then {} else {ShadowMap(id)}) + SpotMapNames(n)
    ensures ShadowMap(id) !in SpotMapNames(n)
  {
    SampledWithin(p, head, id, n);
    SampledCovers(p, head, id, n);
    ShadowMapNotSpot(id, n);
  }

  lemma SampledWithin(p: Pass, head: seq<Binding>, id: nat, n: nat)
    requires head == [] || head == [Binding(ShadowMap(id), "cc_shadowMap")]
    requires p.textures == head + SpotBindings(n)
    ensures Sampled(p) <= (if head == [] then {} else {ShadowMap(id)}) + SpotMapNames(n)
  {
    forall x | x in Sampled(p)
      ensures x in (if head == [] then {} else {ShadowMap(id)}) + SpotMapNames(n)
    {
      var j :| 0 <= j < |p.textures| && p.textures[j].resource == x;
      if j >= |head| {
        SpotBindingsAt(n, j - |head|);
      }
    }
  }

  lemma SampledCovers(p: Pass, head: seq<Binding>, id: nat, n: nat)
    requires head == [] || head == [Binding(ShadowMap(id), "cc_shadowMap")]
    requires p.textures == head + SpotBindings(n)
    ensures (if head == [] then {} else {ShadowMap(id)}) + SpotMapNames(n) <= Sampled(p)
  {
    forall x | x in (if head == [] then {} else {ShadowMap(id)}) + SpotMapNames(n)
      ensures x in Sampled(p)
    {
      if head != [] && x == ShadowMap(id) {
        assert p.textures[0].resource == x;
      } else {
        var k :| 0 <= k < n && x == SpotShadowMap(k);
        SpotBindingsAt(n, k);
        assert p.textures[|head| + k].resource == x;
      }
    }
  }

  /** The cascaded shadow map is never one of the spot maps. */
  lemma ShadowMapNotSpot(id: nat, n: nat)
    ensures ShadowMap(id) !in SpotMapNames(n)
  {
    assert AllLetters(ShadowMapPrefix) && AllLetters(SpotShadowMapPrefix);
    forall k | 0 <= k < n
      ensures SpotShadowMap(k) != ShadowMap(id)
    {
      PrefixedInjective(ShadowMapPrefix, SpotShadowMapPrefix, id, k);
    }
  }

  /**
   * The forward pass samples the spot maps of the lights it adds and, exactly when the main
   * light's shadow map is enabled and the shadow builder kept at least one local light, the
   * cascaded shadow map.
   */
  lemma ShadowMapSampled(v: ForwardView, color: string, ds: string, dsStore: StoreOp,
                         lights: seq<Light>, spots: seq<Light>, maxNum: int)
    ensures var p := ForwardRadiancePass(v, color, ds, dsStore, lights, spots, maxNum);
            Sampled(p) == (if v.flags.mainLightShadowMapEnabled && |lights| > 0 then {ShadowMap(v.id)} else {})
                          + SpotMapNames(MainSpotCount(|spots|, maxNum))
            && (ShadowMap(v.id) in Sampled(p) <==> v.flags.mainLightShadowMapEnabled && |lights| > 0)
  {
    var p := ForwardRadiancePass(v, color, ds, dsStore, lights, spots, maxNum);
    var head := ForwardBase(v, color, ds, dsStore, |lights| > 0).textures;
    SampledMaps(p, head, v.id, MainSpotCount(|spots|, maxNum));
  }

  /**
   * From a cap of 1 upward the spot lights of the forward pass are those of the spot shadow
   * passes: the `k`-th spot queue is lit by the same light as the `k`-th shadow pass and
   * samples the very map that pass writes.
   */
  lemma SpotSamplesShadowed(sv: ShadowPass.ShadowView, camera: nat, spots: seq<Light>, maxNum: int, k: nat)
    requires maxNum >= 1 && k < MainSpotCount(|spots|, maxNum)
    ensures var n := MainSpotCount(|spots|, maxNum);
            var shadow := ShadowPass.SpotPasses(sv, spots, n)[k];
            shadow == ShadowPass.SpotPass(sv, spots[k], k)
            && SpotBindings(n)[k].resource == SpotShadowMap(k) && SpotShadowMap(k) in Written(shadow)
            && SpotQueues(camera, spots, n)[k].draws == [SceneDraw(camera, {SceneBlend}, SceneLight(spots[k].id), CameraFrustum)]
  {
    var n := MainSpotCount(|spots|, maxNum);
    SpotBindingsAt(n, k);
    SpotQueuesAt(camera, spots, n, k);
    ShadowPass.SpotPassesAt(sv, spots, n, k);
    ShadowPass.SpotPassWrites(sv, spots[k], k);
  }

  /**
   * The names `setup` hands to the forward pass never draw the debug warning: on screen they
   * are the window's own pair, off screen the colour is not the window's.
   */
  lemma HandedNamesNeverWarn(f: Frame)
    ensures ForwardWarnings(f.env.debug, ForwardViewOf(f), MainColor(f), MainDepth(f)) == []
  {
    HandedNamesDeclared(f);
  }

  // ---------------------------------------------------------------------------------------
  // Reflection probes
  // ---------------------------------------------------------------------------------------

  /**
   * What the probe passes read of the frame: the camera being set up (its clear mask, colour and
   * main light), its window id, the radiance format, whether it renders planar probes, whether
   * the forward pass binds the cascaded shadow map, and whether this is an editor build.
   */
  datatype ProbeView = ProbeView(camera: Camera, id: nat, radianceFormat: Format,
                                 planarEnabled: bool, shadowed: bool, editor: bool)

  function ProbeViewOf(f: Frame, hasLights: bool): ProbeView {
    ProbeView(f.cam.camera, Id(f), f.cam.flags.radianceFormat, f.cam.flags.planarReflectionProbeEnabled,
              f.cam.flags.mainLightShadowMapEnabled && hasLights, f.env.editor)
  }

  /** `Math.max(Math.floor(x), 1)`: a probe's render-area side in pixels. */
  function ProbeSize(x: real): (s: int)
    ensures s >= 1 && s >= Floor(x)
  {
    Max(Floor(x), 1)
  }

  /** The two resources a probe face renders into, at the probe's size. */
  function ProbeTargets(pv: ProbeView, probe: Probe, color: string, ds: string): seq<Resource> {
    var w, h := ProbeSize(probe.areaWidth), ProbeSize(probe.areaHeight);
    [Resource(RenderWindowResource(None), color, pv.radianceFormat, w, h, Backbuffer),
     Resource(DepthStencilResource, ds, DepthStencilFormat, w, h, Memoryless)]
  }

  /**
   * `_buildReflectionProbePass` on a fresh pass of the probe's size: the colour is cleared to
   * the camera's clear colour packed as RGBE, or loaded, and stored; the depth-stencil is
   * cleared to the probe camera's values, or loaded, and discarded.
   */
  function ProbePassBase(pv: ProbeView, probe: Probe, name: string, color: string, ds: string): Pass {
    Pass(name, "default", ProbeSize(probe.areaWidth), ProbeSize(probe.areaHeight), 1, None,
         [ColorTarget(NeedClearColor(pv.camera), color, Store, ClearCameraColorRGBE(pv.camera.id))],
         Some(DepthTarget(NeedDepthStencil(pv.camera), probe.camera, ds, StoreOp.Discard)),
         if pv.shadowed then [Binding(ShadowMap(pv.id), "cc_shadowMap")] else [],
         [], [], [], false)
  }

  /** The probe's `reflect-map` queue: opaque, masked and probe-visible objects of its camera. */
  function ReflectQueue(pv: ProbeView, probe: Probe): Queue {
    Queue(HintNone, "reflect-map", None, None,
          [SceneDraw(probe.camera.id, {SceneOpaque, SceneMask, SceneReflectionProbe}, MainLightOf(pv.camera), CameraFrustum)])
  }

  function ProbePass(pv: ProbeView, probe: Probe, name: string, color: string, ds: string): Pass {
    ProbePassBase(pv, probe, name, color, ds).(queues := [ReflectQueue(pv, probe)])
  }

  /**
   * A probe pass writes exactly the two resources declared for it, both at its own size, and
   * samples at most the cascaded shadow map.
   */
  lemma ProbePassWritesDeclared(pv: ProbeView, probe: Probe, name: string, color: string, ds: string)
    ensures var p := ProbePass(pv, probe, name, color, ds);
            var rs := ProbeTargets(pv, probe, color, ds);
            Written(p) == {color, ds}
            && (forall n :: n in Written(p) ==>
                  exists r :: r in rs && r.name == n && r.width == p.width && r.height == p.height)
            && Sampled(p) <= {ShadowMap(pv.id)}
  {
    var p := ProbePass(pv, probe, name, color, ds);
    var rs := ProbeTargets(pv, probe, color, ds);
    assert (set k | 0 <= k < |p.targets| :: p.targets[k].name) == {color} by {
      assert p.targets[0].name == color;
    }
    assert rs[0] in rs && rs[1] in rs;
  }

  /** Declarations and passes, each in call order. */
  datatype ProbeWork = ProbeWork(resources: seq<Resource>, passes: seq<Pass>)

  function PlanarWork(pv: ProbeView, probe: Probe, id: nat): ProbeWork {
    var color, ds := Prefixed(PlanarProbeColorPrefix, id), Prefixed(PlanarProbeDepthPrefix, id);
    ProbeWork(ProbeTargets(pv, probe, color, ds), [ProbePass(pv, probe, Prefixed(PlanarProbePassPrefix, id), color, ds)])
  }

  /** One cube face: its names carry the probe number followed by the face number. */
  function CubeFace(pv: ProbeView, probe: Probe, id: nat, face: nat): ProbeWork {
    var color := Prefixed(Prefixed(CubeProbeColorPrefix, id), face);
    var ds := Prefixed(Prefixed(CubeProbeDepthPrefix, id), face);
    ProbeWork(ProbeTargets(pv, probe, color, ds),
              [ProbePass(pv, probe, Prefixed(Prefixed(CubeProbePassPrefix, id), face), color, ds)])
  }

  /** The first `n` faces of a cube probe. */
  function CubeWork(pv: ProbeView, probe: Probe, id: nat, n: nat): (w: ProbeWork)
    ensures |w.resources| == 2 * n && |w.passes| == n
  {
    if n == 0 then ProbeWork([], [])
    else
      var w, c := CubeWork(pv, probe, id, n - 1), CubeFace(pv, probe, id, n - 1);
      ProbeWork(w.resources + c.resources, w.passes + c.passes)
  }

  /** What one rendered probe adds: a planar probe one pass, a cube probe one per face in the editor. */
  function ProbeWorkOf(pv: ProbeView, probe: Probe, id: nat): (w: ProbeWork)
    ensures |w.resources| == 2 * |w.passes|
  {
    if probe.kind == PlanarProbe then PlanarWork(pv, probe, id)
    else if pv.editor then CubeWork(pv, probe, id, probe.cubeFaces)
    else ProbeWork([], [])
  }

  /** The loop's test: the probe asks to be rendered and, if planar, the camera renders planar probes. */
  predicate Renders(pv: ProbeView, probe: Probe) {
    probe.needRender && (probe.kind == PlanarProbe ==> pv.planarEnabled)
  }

  /**
   * The state of `_tryAddReflectionProbePasses` after the first `n` probes: how many were
   * rendered (the next `probeID`), what they added, and which probes were marked as rendered.
   */
  datatype ProbeScan = ProbeScan(count: nat, resources: seq<Resource>, passes: seq<Pass>, cleared: set<nat>)

  /**
   * Each rendered probe takes the next probe number; once `MaxProbeCount` probes were rendered
   * the rest are left alone. A cube probe rendered in the editor is marked as rendered.
   */
  function Scan(pv: ProbeView, probes: seq<Probe>, n: nat): (s: ProbeScan)
    requires n <= |probes|
    ensures s.count <= MaxProbeCount && s.count <= n
    ensures |s.resources| == 2 * |s.passes|
    ensures forall i :: i in s.cleared ==> i < n && probes[i].kind == CubeProbe && probes[i].needRender
  {
    if n == 0 then ProbeScan(0, [], [], {})
    else
      var s := Scan(pv, probes, n - 1);
      var probe := probes[n - 1];
      if s.count == MaxProbeCount || !Renders(pv, probe) then s
      else
        var w := ProbeWorkOf(pv, probe, s.count);
        ProbeScan(s.count + 1, s.resources + w.resources, s.passes + w.passes,
                  if probe.kind == CubeProbe && pv.editor then s.cleared + {n - 1} else s.cleared)
  }

  /** Once `MaxProbeCount` probes were rendered, later probes change nothing. */
  lemma {:induction false} ScanSaturated(pv: ProbeView, probes: seq<Probe>, i: nat, n: nat)
    requires i <= n <= |probes| && Scan(pv, probes, i).count == MaxProbeCount
    ensures Scan(pv, probes, n) == Scan(pv, probes, i)
  {
    if i < n {
      ScanSaturated(pv, probes, i, n - 1);
    }
  }

  /**
   * Outside the editor no probe is marked as rendered and only planar probes add passes, one
   * each, so there are at most `MaxProbeCount` of them; a camera without planar probes then
   * adds nothing at all.
   */
  lemma {:induction false} ScanOutsideEditor(pv: ProbeView, probes: seq<Probe>, n: nat)
    requires n <= |probes| && !pv.editor
    ensures var s := Scan(pv, probes, n);
            s.cleared == {} && |s.passes| <= s.count
            && (!pv.planarEnabled ==> s.passes == [] && s.resources == [])
  {
    if n > 0 {
      ScanOutsideEditor(pv, probes, n - 1);
    }
  }

  /** The log after the probe scan `s` on top of `log`. */
  function ScanLog(log: Log, s: ProbeScan): Log {
    log.(resources := log.resources + s.resources, passes := log.passes + s.passes)
  }

  /** The log after one probe's work `w` on top of `log`. */
  function WorkLog(log: Log, w: ProbeWork): Log {
    log.(resources := log.resources + w.resources, passes := log.passes + w.passes)
  }

  /** One more probe: it is skipped, or rendered with the next number. */
  lemma ScanNext(pv: ProbeView, probes: seq<Probe>, i: nat)
    requires i < |probes| && Scan(pv, probes, i).count < MaxProbeCount
    ensures var s := Scan(pv, probes, i);
            var probe := probes[i];
            Scan(pv, probes, i + 1)
            == if !Renders(pv, probe) then s
               else ProbeScan(s.count + 1, s.resources + ProbeWorkOf(pv, probe, s.count).resources,
                              s.passes + ProbeWorkOf(pv, probe, s.count).passes,
                              if probe.kind == CubeProbe && pv.editor then s.cleared + {i} else s.cleared)
  {
  }

  lemma ScanLogNext(log: Log, s: ProbeScan, w: ProbeWork, t: ProbeScan)
    requires t.resources == s.resources + w.resources && t.passes == s.passes + w.passes
    ensures ScanLog(log, t) == WorkLog(ScanLog(log, s), w)
  {
    assert log.resources + s.resources + w.resources == log.resources + t.resources;
    assert log.passes + s.passes + w.passes == log.passes + t.passes;
  }

  /** `after` is `before` with the marked probes no longer asking to be rendered. */
  predicate Cleared(after: seq<Probe>, before: seq<Probe>, cleared: set<nat>) {
    |after| == |before|
    && forall k :: 0 <= k < |before| ==>
         after[k] == if k in cleared then before[k].(needRender := false) else before[k]
  }

  /** `ReflectionProbeManager.probeManager`: the probes it holds, which the pass may mark as rendered. */
  class ReflectionProbeManager {
    var probes: seq<Probe>

    constructor (initial: seq<Probe>)
      ensures probes == initial
    {
      probes := initial;
    }
  }

  class MainPassBuilder {
    constructor ()
    {
    }

    /** `windowResize`: the offscreen pair when needed, then the multisample buffers with MSAA. */
    method WindowResize(rec: Recorder, f: Frame)
      modifies rec
      ensures rec.log == old(rec.log).(resources := old(rec.log.resources) + MainResources(f))
    {
      var w, h := f.cam.size.width, f.cam.size.height;
      if NeedOffscreen(f) {
        var color := if ShadingScaled(f) then ScaledRadianceColor(Id(f)) else RadianceColor(Id(f));
        var ds := if ShadingScaled(f) then ScaledDepthStencil(Id(f)) else DepthStencil(Id(f));
        rec.Declare(Resource(RenderTargetResource, color, f.cam.flags.radianceFormat, w, h, Managed));
        rec.Declare(Resource(DepthStencilResource, ds, DepthStencilFormat, w, h, Managed));
      }
      if f.cam.flags.msaaEnabled {
        var samples := f.settings.msaa.sampleCount;
        var format := if f.cam.flags.hdrEnabled then f.cam.flags.radianceFormat else RGBA8;
        rec.Declare(Resource(TextureResource(samples, ColorAttachment), MsaaRadiance(Id(f)), format, w, h, Memoryless));
        rec.Declare(Resource(TextureResource(samples, DepthStencilAttachment), MsaaDepthStencil(Id(f)),
                             DepthStencilFormat, w, h, Memoryless));
      }
    }

    /**
     * `setup`: renders the reflection probes, hands the camera's colour and depth-stencil names
     * on, and records the forward pass with the shadow builder's lights, which it returns. It
     * never warns, and the previous pass is not consulted.
     */
    method Setup(rec: Recorder, f: Frame, ctx: RenderingContext, shadow: ShadowPass.ShadowPassBuilder,
                 pf: PipelineFeatures, manager: ReflectionProbeManager?, prev: Option<nat>) returns (r: Option<nat>)
      modifies rec, ctx, manager
      ensures var probes := if manager == null then [] else old(manager.probes);
              var scan := Scan(ProbeViewOf(f, |shadow.lights| > 0), probes, |probes|);
              r == Some(|old(rec.log.passes)| + |scan.passes|)
              && rec.log == old(rec.log).(
                   resources := old(rec.log.resources) + scan.resources,
                   passes := old(rec.log.passes) + scan.passes
                             + [ForwardPass(ForwardViewOf(f), MainColor(f), MainDepth(f), shadow.lights,
                                            shadow.spotLights, pf.mobileMaxSpotLightShadowMaps)])
              && (manager != null ==> Cleared(manager.probes, probes, scan.cleared))
      ensures ctx.colorName == Some(MainColor(f)) && ctx.depthStencilName == Some(MainDepth(f))
      ensures ctx.lastPass == old(ctx.lastPass)
    {
      var lights, spots := shadow.lights, shadow.spotLights;
      var color, ds := MainColor(f), MainDepth(f);
      HandedNamesNeverWarn(f);
      var h := AddPasses(rec, ctx, manager, ProbeViewOf(f, |lights| > 0), ForwardViewOf(f), f.env.debug,
                         color, ds, lights, spots, pf.mobileMaxSpotLightShadowMaps);
      return Some(h);
    }

    /**
     * The steps of `setup` once the names are chosen: the probe passes, the context's names and
     * the forward pass.
     */
    method AddPasses(rec: Recorder, ctx: RenderingContext, manager: ReflectionProbeManager?,
                     pv: ProbeView, v: ForwardView, debug: bool, color: string, ds: string,
                     lights: seq<Light>, spots: seq<Light>, maxNum: int) returns (h: nat)
      modifies rec, ctx, manager
      ensures var probes := if manager == null then [] else old(manager.probes);
              var scan := Scan(pv, probes, |probes|);
              h == |old(rec.log.passes)| + |scan.passes|
              && rec.log == old(rec.log).(
                   resources := old(rec.log.resources) + scan.resources,
                   passes := old(rec.log.passes) + scan.passes + [ForwardPass(v, color, ds, lights, spots, maxNum)],
                   warnings := old(rec.log.warnings) + ForwardWarnings(debug, v, color, ds))
              && (manager != null ==> Cleared(manager.probes, probes, scan.cleared))
      ensures ctx.colorName == Some(color) && ctx.depthStencilName == Some(ds)
      ensures ctx.lastPass == old(ctx.lastPass)
    {
      TryAddReflectionProbePasses(rec, pv, manager);
      ctx.colorName := Some(color);
      ctx.depthStencilName := Some(ds);
      h := AddForwardPass(rec, v, debug, color, ds, lights, spots, maxNum);
    }

    /** The forward pass of `setup`: `_addForwardSingleRadiancePass`, then the closing queues. */
    method AddForwardPass(rec: Recorder, v: ForwardView, debug: bool, color: string, ds: string,
                          lights: seq<Light>, spots: seq<Light>, maxNum: int) returns (h: nat)
      modifies rec
      ensures h == |old(rec.log.passes)|
      ensures rec.log == old(rec.log).(
                passes := old(rec.log.passes) + [ForwardPass(v, color, ds, lights, spots, maxNum)],
                warnings := old(rec.log.warnings) + ForwardWarnings(debug, v, color, ds))
    {
      h := AddForwardSingleRadiancePass(rec, v, debug, color, ds, StoreOp.Discard, lights, spots, maxNum);
      AddTailQueues(rec, h, v);
    }

    /** The planar shadow queue when enabled, then the transparent queue. */
    method AddTailQueues(rec: Recorder, h: nat, v: ForwardView)
      requires h < |rec.log.passes|
      modifies rec
      ensures rec.log == old(rec.log).(passes := old(rec.log.passes)[h := old(rec.log.passes)[h].(
                queues := old(rec.log.passes)[h].queues + TailQueues(v))])
    {
      ghost var p := rec.log.passes[h];
      if v.flags.mainLightPlanarShadowMapEnabled {
        rec.AddQueue(h, PlanarShadowQueue(v.camera));
        assert p.queues + [PlanarShadowQueue(v.camera)] + [BlendQueue(v.camera)] == p.queues + TailQueues(v);
      } else {
        assert p.queues + [BlendQueue(v.camera)] == p.queues + TailQueues(v);
      }
      rec.AddQueue(h, BlendQueue(v.camera));
    }

    /**
     * `_addForwardSingleRadiancePass` with `_buildForwardMainLightPass`: the pass, the main
     * light queue, the light queues and the spot light queues; in debug builds a single-sample
     * pass drawing onto the window with a depth-stencil of its own is reported.
     */
    method AddForwardSingleRadiancePass(rec: Recorder, v: ForwardView, debug: bool, color: string, ds: string,
                                        dsStore: StoreOp, lights: seq<Light>, spots: seq<Light>, maxNum: int)
      returns (h: nat)
      modifies rec
      ensures h == |old(rec.log.passes)|
      ensures rec.log == old(rec.log).(
                passes := old(rec.log.passes) + [ForwardRadiancePass(v, color, ds, dsStore, lights, spots, maxNum)],
                warnings := old(rec.log.warnings) + ForwardWarnings(debug, v, color, ds))
    {
      h := AddMainLightPass(rec, v, debug, color, ds, dsStore, |lights| > 0);
      ghost var p1 := ForwardBase(v, color, ds, dsStore, |lights| > 0).(queues := [MainLightQueue(v.camera)]);
      AddLightQueues(rec, h, v.camera.id, lights);
      ghost var p2 := p1.(queues := p1.queues + LightQueues(v.camera.id, lights, |lights|));
      assert rec.log.passes == old(rec.log.passes) + [p2];
      AddSpotQueues(rec, h, v.camera.id, spots, maxNum);
      ghost var n := MainSpotCount(|spots|, maxNum);
      assert p2.(textures := p2.textures + SpotBindings(n), queues := p2.queues + SpotQueues(v.camera.id, spots, n))
             == ForwardRadiancePass(v, color, ds, dsStore, lights, spots, maxNum);
    }

    /** The pass with its main light queue, after the debug warning. */
    method AddMainLightPass(rec: Recorder, v: ForwardView, debug: bool, color: string, ds: string,
                            dsStore: StoreOp, hasLights: bool) returns (h: nat)
      modifies rec
      ensures h == |old(rec.log.passes)|
      ensures rec.log == old(rec.log).(
                passes := old(rec.log.passes) + [ForwardBase(v, color, ds, dsStore, hasLights).(
                            queues := [MainLightQueue(v.camera)])],
                warnings := old(rec.log.warnings) + ForwardWarnings(debug, v, color, ds))
    {
      if debug && !v.flags.msaaEnabled && color == WindowColor(v.id) && ds != WindowDepthStencil(v.id) {
        rec.Warn(CustomDepthOnWindow);
      }
      var base := ForwardBase(v, color, ds, dsStore, hasLights);
      h := rec.AddPass(base);
      assert base.queues + [MainLightQueue(v.camera)] == [MainLightQueue(v.camera)];
      rec.AddQueue(h, MainLightQueue(v.camera));
    }

    /** `_addLightQueues`: one additive queue per light, in order. */
    method AddLightQueues(rec: Recorder, h: nat, camera: nat, lights: seq<Light>)
      requires h < |rec.log.passes|
      modifies rec
      ensures rec.log == old(rec.log).(passes := old(rec.log.passes)[h := old(rec.log.passes)[h].(
                queues := old(rec.log.passes)[h].queues + LightQueues(camera, lights, |lights|))])
    {
      ghost var p := old(rec.log.passes)[h];
      assert p.(queues := p.queues + LightQueues(camera, lights, 0)) == p;
      for i := 0 to |lights|
        invariant rec.log == old(rec.log).(passes := old(rec.log.passes)[h := p.(queues := p.queues + LightQueues(camera, lights, i))])
      {
        rec.AddQueue(h, LightQueue(camera, lights[i]));
        assert p.queues + LightQueues(camera, lights, i) + [LightQueue(camera, lights[i])]
               == p.queues + LightQueues(camera, lights, i + 1);
      }
    }

    /**
     * The spot loop: binds each shadowed spot light's map and adds its queue, and stops once the
     * number added reaches the cap.
     */
    method AddSpotQueues(rec: Recorder, h: nat, camera: nat, spots: seq<Light>, maxNum: int)
      requires h < |rec.log.passes|
      modifies rec
      ensures var n := MainSpotCount(|spots|, maxNum);
              rec.log == old(rec.log).(passes := old(rec.log.passes)[h := old(rec.log.passes)[h].(
                textures := old(rec.log.passes)[h].textures + SpotBindings(n),
                queues := old(rec.log.passes)[h].queues + SpotQueues(camera, spots, n))])
    {
      ghost var p := old(rec.log.passes)[h];
      assert p.(textures := p.textures + SpotBindings(0), queues := p.queues + SpotQueues(camera, spots, 0)) == p;
      var i := 0;
      while i < |spots|
        invariant 0 <= i <= |spots| && (i == 0 || i < maxNum)
        invariant rec.log == old(rec.log).(passes := old(rec.log.passes)[h := p.(
                    textures := p.textures + SpotBindings(i), queues := p.queues + SpotQueues(camera, spots, i))])
      {
        AddSpotLight(rec, h, camera, spots, i, p);
        i := i + 1;
        if i >= maxNum {
          break;
        }
      }
      assert i == MainSpotCount(|spots|, maxNum);
    }

    /** One turn of the spot loop: the `i`-th light's map binding and its queue. */
    method AddSpotLight(rec: Recorder, h: nat, camera: nat, spots: seq<Light>, i: nat, ghost p: Pass)
      requires h < |rec.log.passes| && i < |spots|
      requires rec.log.passes[h] == p.(textures := p.textures + SpotBindings(i),
                                       queues := p.queues + SpotQueues(camera, spots, i))
      modifies rec
      ensures rec.log == old(rec.log).(passes := old(rec.log.passes)[h := p.(
                textures := p.textures + SpotBindings(i + 1), queues := p.queues + SpotQueues(camera, spots, i + 1))])
    {
      rec.AddTexture(h, Binding(SpotShadowMap(i), "cc_spotShadowMap"));
      rec.AddQueue(h, SpotQueue(camera, spots[i]));
      assert p.textures + SpotBindings(i) + [Binding(SpotShadowMap(i), "cc_spotShadowMap")]
             == p.textures + SpotBindings(i + 1);
      assert p.queues + SpotQueues(camera, spots, i) + [SpotQueue(camera, spots[i])]
             == p.queues + SpotQueues(camera, spots, i + 1);
    }

    /** `_tryAddReflectionProbePasses`: nothing without a probe manager, else the probe scan. */
    method TryAddReflectionProbePasses(rec: Recorder, pv: ProbeView, manager: ReflectionProbeManager?)
      modifies rec, manager
      ensures var probes := if manager == null then [] else old(manager.probes);
              rec.log == ScanLog(old(rec.log), Scan(pv, probes, |probes|))
      ensures manager != null ==>
                var scan := Scan(pv, old(manager.probes), |old(manager.probes)|);
                Cleared(manager.probes, old(manager.probes), scan.cleared)
    {
      if manager == null {
        assert ScanLog(rec.log, Scan(pv, [], 0)) == rec.log;
        return;
      }
      ScanProbes(rec, pv, manager);
    }

    /** The probe loop of `_tryAddReflectionProbePasses`. */
    method ScanProbes(rec: Recorder, pv: ProbeView, manager: ReflectionProbeManager)
      modifies rec, manager
      ensures rec.log == ScanLog(old(rec.log), Scan(pv, old(manager.probes), |old(manager.probes)|))
      ensures Cleared(manager.probes, old(manager.probes), Scan(pv, old(manager.probes), |old(manager.probes)|).cleared)
    {
      var probes := manager.probes;
      var probeID := 0;
      var i := 0;
      while i < |probes|
        invariant 0 <= i <= |probes| && probeID == Scan(pv, probes, i).count < MaxProbeCount
        invariant rec.log == ScanLog(old(rec.log), Scan(pv, probes, i))
        invariant Cleared(manager.probes, probes, Scan(pv, probes, i).cleared)
      {
        if !Renders(pv, probes[i]) {
          ScanNext(pv, probes, i);
          i := i + 1;
          continue;
        }
        RenderProbe(rec, pv, manager, probes, i, probeID, old(rec.log));
        probeID := probeID + 1;
        i := i + 1;
        if probeID == MaxProbeCount {
          ScanSaturated(pv, probes, i, |probes|);
          break;
        }
      }
    }

    /**
     * The loop body for the `i`-th probe when it is rendered: its passes under the number
     * `probeID`, then, for a cube probe in the editor, the probe marked as rendered.
     */
    method RenderProbe(rec: Recorder, pv: ProbeView, manager: ReflectionProbeManager, probes: seq<Probe>,
                       i: nat, probeID: nat, ghost log0: Log)
      requires i < |probes| && Renders(pv, probes[i]) && probeID == Scan(pv, probes, i).count < MaxProbeCount
      requires rec.log == ScanLog(log0, Scan(pv, probes, i))
      requires Cleared(manager.probes, probes, Scan(pv, probes, i).cleared)
      modifies rec, manager
      ensures Scan(pv, probes, i + 1).count == probeID + 1
      ensures rec.log == ScanLog(log0, Scan(pv, probes, i + 1))
      ensures Cleared(manager.probes, probes, Scan(pv, probes, i + 1).cleared)
    {
      var probe := probes[i];
      ghost var s := Scan(pv, probes, i);
      ScanNext(pv, probes, i);
      AddProbeWork(rec, pv, probe, probeID);
      ScanLogNext(log0, s, ProbeWorkOf(pv, probe, probeID), Scan(pv, probes, i + 1));
      if probe.kind == CubeProbe && pv.editor {
        MarkRendered(manager, probes, s.cleared, i);
      }
    }

    /** `probe.needRender = false` on the `i`-th probe. */
    method MarkRendered(manager: ReflectionProbeManager, ghost probes: seq<Probe>, ghost cleared: set<nat>, i: nat)
      requires i < |probes| && Cleared(manager.probes, probes, cleared)
      modifies manager
      ensures Cleared(manager.probes, probes, cleared + {i})
    {
      manager.probes := manager.probes[i := manager.probes[i].(needRender := false)];
    }

    /** The body of the probe loop for a probe that is rendered, numbered `id`. */
    method AddProbeWork(rec: Recorder, pv: ProbeView, probe: Probe, id: nat)
      modifies rec
      ensures rec.log == WorkLog(old(rec.log), ProbeWorkOf(pv, probe, id))
    {
      if probe.kind == PlanarProbe {
        AddProbePass(rec, pv, probe, Prefixed(PlanarProbePassPrefix, id),
                     Prefixed(PlanarProbeColorPrefix, id), Prefixed(PlanarProbeDepthPrefix, id));
      } else if pv.editor {
        ghost var log0 := rec.log;
        for face := 0 to probe.cubeFaces
          invariant rec.log == log0.(resources := log0.resources + CubeWork(pv, probe, id, face).resources,
                                     passes := log0.passes + CubeWork(pv, probe, id, face).passes)
        {
          AddProbePass(rec, pv, probe, Prefixed(Prefixed(CubeProbePassPrefix, id), face),
                       Prefixed(Prefixed(CubeProbeColorPrefix, id), face),
                       Prefixed(Prefixed(CubeProbeDepthPrefix, id), face));
        }
      }
    }

    /** Declares a probe face's window and depth-stencil, then adds its pass. */
    method AddProbePass(rec: Recorder, pv: ProbeView, probe: Probe, name: string, color: string, ds: string)
      modifies rec
      ensures rec.log == old(rec.log).(resources := old(rec.log.resources) + ProbeTargets(pv, probe, color, ds),
                                       passes := old(rec.log.passes) + [ProbePass(pv, probe, name, color, ds)])
    {
      var w, h := ProbeSize(probe.areaWidth), ProbeSize(probe.areaHeight);
      rec.Declare(Resource(RenderWindowResource(None), color, pv.radianceFormat, w, h, Backbuffer));
      rec.Declare(Resource(DepthStencilResource, ds, DepthStencilFormat, w, h, Memoryless));
      var handle := rec.AddPass(ProbePassBase(pv, probe, name, color, ds));
      ghost var added := rec.log;
      assert ProbePassBase(pv, probe, name, color, ds).queues + [ReflectQueue(pv, probe)] == [ReflectQueue(pv, probe)];
      rec.AddQueue(handle, ReflectQueue(pv, probe));
      assert rec.log.passes == added.passes[handle := ProbePass(pv, probe, name, color, ds)];
      assert added.passes[handle := ProbePass(pv, probe, name, color, ds)]
             == old(rec.log.passes) + [ProbePass(pv, probe, name, color, ds)];
    }
  }
}
