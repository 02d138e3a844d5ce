/**
 * xq-pipeline.ts: the custom pipeline. It owns one builder of each kind, sorts them by render
 * order once, and per frame resolves the features and settings for each camera and runs the
 * builders in order, handing each the rendering context and the last pass of the one before.
 * Cameras that do not see the DEFAULT layer get one simple forward pass instead.
 */
module Pipeline {
  import opened Wrappers
  import opened Host
  import opened RenderGraph
  import opened Names
  import opened Sorting
  import opened Windows
  import opened Utils
  import opened Features
  import opened Cameras
  import opened Contexts
  import opened TaaPass
  import PrePass
  import ShadowPass
  import MainPass
  import PostPass
  import UiPass
  import SssPass

  /** The builders the pipeline registers; the SSS and TAA builders are not among them. */
  datatype BuilderKind = PreBuilder | ShadowBuilder | MainBuilder | PostBuilder | UiBuilder

  /** `getRenderOrder()` of each registered builder. */
  function RenderOrderOf(k: BuilderKind): int {
    match k
    case PreBuilder => PrePass.RenderOrder
    case ShadowBuilder => ShadowPass.RenderOrder
    case MainBuilder => MainPass.RenderOrder
    case PostBuilder => PostPass.RenderOrder
    case UiBuilder => UiPass.RenderOrder
  }

  /** `_passBuilders` as the field initialiser lists them. */
  const DeclaredBuilders: seq<BuilderKind> := [PreBuilder, ShadowBuilder, MainBuilder, PostBuilder, UiBuilder]

  /** Each builder paired with its render order, the comparator's key. */
  function WithOrders(ks: seq<BuilderKind>): (r: seq<Keyed<BuilderKind>>)
    ensures |r| == |ks|
    ensures forall i :: 0 <= i < |ks| ==> r[i] == Keyed(ks[i], RenderOrderOf(ks[i]))
  {
    if |ks| == 0 then [] else [Keyed(ks[0], RenderOrderOf(ks[0]))] + WithOrders(ks[1..])
  }

  function Items(s: seq<Keyed<BuilderKind>>): (r: seq<BuilderKind>)
    ensures |r| == |s|
    ensures forall i :: 0 <= i < |s| ==> r[i] == s[i].item
  {
    if |s| == 0 then [] else [s[0].item] + Items(s[1..])
  }

  /** The builder list after the constructor's sort. */
  function SortedBuilders(): seq<BuilderKind> {
    Items(Sort(WithOrders(DeclaredBuilders)))
  }

  /**
   * The declared list is already in strictly increasing render order, so the constructor's
   * stable sort leaves it as it is.
   */
  lemma BuildersInRenderOrder()
    ensures SortedBuilders() == DeclaredBuilders
    ensures forall i, j :: 0 <= i < j < |DeclaredBuilders| ==>
              RenderOrderOf(DeclaredBuilders[i]) < RenderOrderOf(DeclaredBuilders[j])
  {
    var s := WithOrders(DeclaredBuilders);
    assert Sorted(s);
    SortSortedIsIdentity(s);
    assert Items(s) == DeclaredBuilders;
  }

  /** The index `Array.prototype.find` stops at: the first builder with the given order. */
  function FirstIndex(bs: seq<BuilderKind>, order: int): (r: Option<nat>)
    ensures r.None? <==> forall i :: 0 <= i < |bs| ==> RenderOrderOf(bs[i]) != order
    ensures r.Some? ==> r.value < |bs| && RenderOrderOf(bs[r.value]) == order
                        && forall j :: 0 <= j < r.value ==> RenderOrderOf(bs[j]) != order
  {
    if |bs| == 0 then None
    else if RenderOrderOf(bs[0]) == order then Some(0)
    else match FirstIndex(bs[1..], order)
      case None => None
      case Some(i) => Some(i + 1)
  }

  /** `findFirstPassBuilderByOrder` on a builder list: the first builder of that order, or null. */
  function FindFirst(bs: seq<BuilderKind>, order: int): Option<BuilderKind> {
    match FirstIndex(bs, order)
    case None => None
    case Some(i) => Some(bs[i])
  }

  /**
   * On the registered builders each order finds its own builder. The post-process builder
   * shares its order with the TAA builder, which is not registered, so that order finds the
   * post-process builder; the SSS order finds nothing; the shadow order finds the shadow
   * builder, which is the one the main pass reads its culled lights from.
   */
  lemma FindRegisteredBuilders()
    ensures FindFirst(DeclaredBuilders, PrePass.RenderOrder) == Some(PreBuilder)
    ensures FindFirst(DeclaredBuilders, ShadowPass.RenderOrder) == Some(ShadowBuilder)
    ensures FindFirst(DeclaredBuilders, MainPass.RenderOrder) == Some(MainBuilder)
    ensures FindFirst(DeclaredBuilders, PostPass.RenderOrder) == Some(PostBuilder)
    ensures FindFirst(DeclaredBuilders, TaaPass.RenderOrder) == Some(PostBuilder)
    ensures FindFirst(DeclaredBuilders, UiPass.RenderOrder) == Some(UiBuilder)
    ensures FindFirst(DeclaredBuilders, SssPass.RenderOrder) == None
  {
    FirstIndexOfDeclared(0, PrePass.RenderOrder);
    FirstIndexOfDeclared(1, ShadowPass.RenderOrder);
    FirstIndexOfDeclared(2, MainPass.RenderOrder);
    FirstIndexOfDeclared(3, PostPass.RenderOrder);
    FirstIndexOfDeclared(4, UiPass.RenderOrder);
  }

  /** The index of the declared builder whose order is `order`. */
  lemma FirstIndexOfDeclared(i: nat, order: int)
    requires i < |DeclaredBuilders| && RenderOrderOf(DeclaredBuilders[i]) == order
    ensures FirstIndex(DeclaredBuilders, order) == Some(i)
  {
    BuildersInRenderOrder();
  }

  /** `isEditorView`: the scene view and the preview camera. */
  predicate IsEditorView(camera: Camera) {
    camera.usage == SceneViewUsage || camera.usage == PreviewUsage
  }

  /**
   * The settings `_updateSettingsAndInfo` picks: an editor view takes the editor's settings, any
   * other camera its own; both fall back to the default settings.
   */
  function ChooseSettings(camera: Camera, env: Environment): (s: Settings)
    ensures IsEditorView(camera) && env.editorSettings.Some? ==> s == env.editorSettings.value
    ensures !IsEditorView(camera) && camera.pipelineSettings.Some? ==> s == camera.pipelineSettings.value
    ensures (if IsEditorView(camera) then env.editorSettings.None? else camera.pipelineSettings.None?)
            ==> s == env.defaultSettings
  {
    if IsEditorView(camera) then
      match env.editorSettings
      case Some(e) => e
      case None => env.defaultSettings
    else
      match camera.pipelineSettings
      case Some(p) => p
      case None => env.defaultSettings
  }

  /** `addRenderWindow(windowColor, RGBA8, nativeWidth, nativeHeight, window, windowDepthStencil)`. */
  function WindowResource(state: CameraState, nativeWidth: int, nativeHeight: int): Resource {
    Resource(RenderWindowResource(Some(WindowDepthStencil(state.size.id))), WindowColor(state.size.id),
             RGBA8, nativeWidth, nativeHeight, Backbuffer)
  }

  /** The draws of the simple pipeline's queue. */
  function SimpleDraws(state: CameraState, profileCamera: Option<Camera>): seq<Draw> {
    var id := state.camera.id;
    [SceneDraw(id, {SceneOpaque, SceneBlend, SceneMask, SceneGeometry}, NoLight, CameraFrustum), Draw2D(id)]
    + (if IsProfilerLayerCamera(state, profileCamera) then [Profiler(id)] else [])
  }

  /** The simple pass before its queue. */
  function SimpleBase(state: CameraState): Pass {
    var id := state.size.id;
    NewPass("", "default", state.size.width, state.size.height).(
      viewport := Some(FillViewport(state)),
      targets := [MainPass.ColorTarget(NeedClearColor(state.camera), WindowColor(id), Store,
                                       ClearCameraColor(state.camera.id))],
      depthStencil := Some(MainPass.DepthTarget(NeedDepthStencil(state.camera), state.camera,
                                                WindowDepthStencil(id), StoreOp.Discard)))
  }

  /** `_buildSimplePipeline`: one forward pass straight onto the window. */
  function SimplePass(state: CameraState, profileCamera: Option<Camera>): Pass {
    SimpleBase(state).(
      queues := [Queue(HintOpaque, "default", None, None, SimpleDraws(state, profileCamera))],
      showStatistics := IsProfilerLayerCamera(state, profileCamera))
  }

  /**
   * The simple pass renders onto the window's colour and depth-stencil and samples nothing; it
   * clears colour exactly when the camera asks for a colour or skybox clear, clears depth exactly
   * when it asks for a depth or stencil clear, keeps the colour and drops the depth-stencil;
   * its one opaque queue draws the scene, then the 2D layer, then the profiler exactly for the
   * profile camera, which alone shows statistics.
   */
  lemma SimplePassShape(state: CameraState, profileCamera: Option<Camera>)
    ensures var p := SimplePass(state, profileCamera);
            Written(p) == {WindowColor(state.size.id), WindowDepthStencil(state.size.id)}
            && Sampled(p) == {}
            && p.viewport == Some(FillViewport(state))
            && p.targets[0].store == Store && p.depthStencil.value.store == StoreOp.Discard
            && (p.targets[0].load == Clear <==> NeedClearColor(state.camera))
            && (p.depthStencil.value.load == Clear <==> NeedDepthStencil(state.camera))
    ensures var p := SimplePass(state, profileCamera);
            var draws := p.queues[0].draws;
            |p.queues| == 1 && p.queues[0].hint == HintOpaque
            && draws[0].SceneDraw? && draws[0].flags == {SceneOpaque, SceneBlend, SceneMask, SceneGeometry}
            && draws[1] == Draw2D(state.camera.id)
            && (p.showStatistics <==> profileCamera == Some(state.camera))
            && (Profiler(state.camera.id) in draws <==> profileCamera == Some(state.camera))
  {
    var p := SimplePass(state, profileCamera);
    var id := state.size.id;
    assert Written(p) == {WindowColor(id), WindowDepthStencil(id)} by {
      assert p.targets == [p.targets[0]];
      assert (set k | 0 <= k < |p.targets| :: p.targets[k].name) == {WindowColor(id)};
    }
    assert Sampled(p) == {} by {
      assert p.textures == [];
    }
    var draws := p.queues[0].draws;
    if profileCamera != Some(state.camera) {
      assert draws == [draws[0], draws[1]];
    }
  }

  /** The resources one builder's `windowResize` declares; the UI builder has none. */
  function BuilderResources(f: Frame, slots: nat, k: BuilderKind): seq<Resource> {
    match k
    case PreBuilder => PrePass.PrepassResources(f)
    case ShadowBuilder => ShadowPass.ShadowResources(f, slots)
    case MainBuilder => MainPass.MainResources(f)
    case PostBuilder => PostPass.PostResources(f)
    case UiBuilder => []
  }

  /** The resources a run of builders declares, in builder order. */
  function ResizeResources(f: Frame, slots: nat, ks: seq<BuilderKind>): seq<Resource> {
    if |ks| == 0 then [] else ResizeResources(f, slots, ks[..|ks| - 1]) + BuilderResources(f, slots, ks[|ks| - 1])
  }

  /** The resource list `base` once a run of builders has declared its resources after it. */
  function ResizedOnto(base: seq<Resource>, f: Frame, slots: nat, ks: seq<BuilderKind>): seq<Resource> {
    if |ks| == 0 then base else ResizedOnto(base, f, slots, ks[..|ks| - 1]) + BuilderResources(f, slots, ks[|ks| - 1])
  }

  lemma ResizedOntoStep(base: seq<Resource>, f: Frame, slots: nat, ks: seq<BuilderKind>, i: nat)
    requires i < |ks|
    ensures ResizedOnto(base, f, slots, ks[..i + 1]) == ResizedOnto(base, f, slots, ks[..i]) + BuilderResources(f, slots, ks[i])
  {
    assert ks[..i + 1][..i] == ks[..i];
  }

  /** Declaring onto `base` keeps `base` and appends what the builders declare, in builder order. */
  lemma {:induction false} ResizedOntoAppends(base: seq<Resource>, f: Frame, slots: nat, ks: seq<BuilderKind>)
    ensures ResizedOnto(base, f, slots, ks) == base + ResizeResources(f, slots, ks)
  {
    if |ks| > 0 {
      var init := ks[..|ks| - 1];
      ResizedOntoAppends(base, f, slots, init);
      ConcatAssoc(base, ResizeResources(f, slots, init), BuilderResources(f, slots, ks[|ks| - 1]));
    }
  }

  lemma ConcatAssoc<T>(a: seq<T>, b: seq<T>, c: seq<T>)
    ensures a + b + c == a + (b + c)
  {
  }

  lemma PrefixMember<T>(s: seq<T>, i: nat, x: T)
    requires i < |s|
    ensures x in s[..i + 1] <==> x in s[..i] || s[i] == x
  {
    assert s[..i + 1] == s[..i] + [s[i]];
  }

  /** What one builder's `setup` hands back, given the pass count before and after it. */
  predicate Handed(k: BuilderKind, prev: Option<nat>, r: Option<nat>, before: nat, after: nat) {
    before <= after &&
    match k
    case PreBuilder => after == before + 1 && r == Some(before)
    case ShadowBuilder => r == prev
    case MainBuilder => before < after && r == Some(after - 1)
    case PostBuilder => r == LastPass(prev, before, after - before)
    case UiBuilder => after == before && r == prev
  }

  /**
   * The first `i` builders of `ks` ran as a chain on `base` passes: each handed on what its
   * `setup` returned, given the result of the one before (nothing for the first), and the
   * chain has added at least one pass once it started.
   */
  predicate Chained(ks: seq<BuilderKind>, i: nat, prevs: seq<Option<nat>>, results: seq<Option<nat>>,
                    sizes: seq<nat>, base: nat)
  {
    i <= |ks| && |prevs| == i && |results| == i && |sizes| == i + 1 && sizes[0] == base
    && (i > 0 ==> prevs[0] == None && sizes[i] > base)
    && (forall k :: 0 < k < i ==> prevs[k] == results[k - 1])
    && (forall k :: 0 <= k < i ==> Handed(ks[k], prevs[k], results[k], sizes[k], sizes[k + 1]))
  }

  /** A chain whose first builder is the prepass grows by one more builder. */
  lemma ChainStep(ks: seq<BuilderKind>, i: nat, prevs: seq<Option<nat>>, results: seq<Option<nat>>,
                  sizes: seq<nat>, base: nat, prev: Option<nat>, r: Option<nat>, after: nat)
    requires Chained(ks, i, prevs, results, sizes, base) && i < |ks| && ks[0] == PreBuilder
    requires prev == (if i == 0 then None else results[i - 1])
    requires Handed(ks[i], prev, r, sizes[i], after)
    ensures Chained(ks, i + 1, prevs + [prev], results + [r], sizes + [after], base)
  {
    var ps, rs, ss := prevs + [prev], results + [r], sizes + [after];
    assert forall k :: 0 <= k < i ==> ps[k] == prevs[k] && rs[k] == results[k];
    assert forall k :: 0 <= k <= i ==> ss[k] == sizes[k];
  }

  /** The colour and depth-stencil names in the context after one builder's `setup`. */
  function ContextAfter(k: BuilderKind, f: Frame, names: (Option<string>, Option<string>)): (Option<string>, Option<string>) {
    match k
    case PreBuilder => (names.0, Some(PrePass.HandedDepth(f)))
    case ShadowBuilder => names
    case MainBuilder => (Some(MainPass.MainColor(f)), Some(MainPass.MainDepth(f)))
    case PostBuilder => (Some(WindowColor(Id(f))), names.1)
    case UiBuilder => names
  }

  /** The names in a reset context after a run of builders. */
  function NamesAfter(f: Frame, ks: seq<BuilderKind>): (Option<string>, Option<string>) {
    if |ks| == 0 then (None, None) else ContextAfter(ks[|ks| - 1], f, NamesAfter(f, ks[..|ks| - 1]))
  }

  lemma NamesStep(f: Frame, ks: seq<BuilderKind>, i: nat)
    requires i < |ks|
    ensures NamesAfter(f, ks[..i + 1]) == ContextAfter(ks[i], f, NamesAfter(f, ks[..i]))
  {
    assert ks[..i + 1][..i] == ks[..i];
  }

  /**
   * Along the registered builders the post-process builder finds a colour to read (the main
   * pass's), and the chain ends on the window colour and the main pass's depth-stencil.
   */
  lemma {:induction false} NamesAlongDeclared(f: Frame)
    ensures NamesAfter(f, DeclaredBuilders[..3]).0 == Some(MainPass.MainColor(f))
    ensures NamesAfter(f, DeclaredBuilders) == (Some(WindowColor(Id(f))), Some(MainPass.MainDepth(f)))
  {
    var d := DeclaredBuilders;
    assert d[..3][..2] == d[..2];
    assert d[..4][..3] == d[..3];
    assert d[..5] == d;
    assert d[..4] == d[..5][..4];
    assert NamesAfter(f, d[..3]) == ContextAfter(MainBuilder, f, NamesAfter(f, d[..2]));
    assert NamesAfter(f, d[..4]) == ContextAfter(PostBuilder, f, NamesAfter(f, d[..3]));
    assert NamesAfter(f, d) == ContextAfter(UiBuilder, f, NamesAfter(f, d[..4]));
  }

  class XQPipeline {
    const prePass: PrePass.PrePassBuilder
    const shadowPass: ShadowPass.ShadowPassBuilder
    const mainPass: MainPass.MainPassBuilder
    const postPass: PostPass.PostProcessPassBuilder
    const uiPass: UiPass.UIPassBuilder
    /** `_passBuilders`, sorted by render order. */
    var passBuilders: seq<BuilderKind>
    /** The settings of the camera being rendered. */
    var settings: Settings
    const cameraInfo: CameraInfo
    const features: PipelineFeatures
    const renderingContext: RenderingContext
    var profileCamera: Option<Camera>

    /** The registered builders in render order, and a TAA state the post builder accepts. */
    predicate Valid()
      reads this, postPass.taa
    {
      passBuilders == DeclaredBuilders && TaaValid(postPass.taa.State())
    }

    /** `settings` starts as `initial`: the field has no value before the first camera. */
    constructor (initial: Settings)
      ensures Valid() && passBuilders == DeclaredBuilders
      ensures settings == initial && profileCamera == None && renderingContext.IsReset()
      ensures cameraInfo.camera == None && features.flags == InitialFeatures
      ensures postPass.taa.State() == InitialTaa
    {
      prePass := new PrePass.PrePassBuilder();
      shadowPass := new ShadowPass.ShadowPassBuilder();
      mainPass := new MainPass.MainPassBuilder();
      postPass := new PostPass.PostProcessPassBuilder();
      uiPass := new UiPass.UIPassBuilder();
      BuildersInRenderOrder();
      passBuilders := Items(Sort(WithOrders(DeclaredBuilders)));
      settings := initial;
      cameraInfo := new CameraInfo();
      features := new PipelineFeatures();
      renderingContext := new RenderingContext();
      profileCamera := None;
    }

    /** `findFirstPassBuilderByOrder(order)`. */
    function FindFirstPassBuilderByOrder(order: int): Option<BuilderKind>
      reads this
    {
      FindFirst(passBuilders, order)
    }

    /** What the builders read for the current camera: settings, features, camera info and the rest. */
    function FrameOf(helpers: Helpers, env: Environment, jitter: JitterValue): Frame
      requires cameraInfo.camera.Some?
      reads this, cameraInfo, features
    {
      Frame(settings, features.flags, cameraInfo.State(), helpers, env, profileCamera, jitter)
    }

    /** `_updateSettingsAndInfo(camera)`: picks the settings, then resets the camera info with them. */
    method UpdateSettingsAndInfo(camera: Camera, env: Environment, cache: WindowInfoCache)
      requires camera.window.Some? && cache.Valid()
      modifies this, cameraInfo, cache, cache.entries.Values
      ensures cache.Valid()
      ensures settings == ChooseSettings(camera, env)
      ensures cameraInfo.camera == Some(camera)
      ensures cameraInfo.flags == DeriveFlags(camera, settings, features.flags)
      ensures cameraInfo.size == SetSize(camera.window.value.renderWindowId, NativeSize(camera.window.value.width),
                                         NativeSize(camera.window.value.height), EffectiveScale(settings))
      ensures passBuilders == old(passBuilders) && profileCamera == old(profileCamera)
      ensures cache.Sizes() == RefreshedSizes(old(cache.Sizes()), camera.window.value, settings)
      ensures forall w :: w in cache.entries.Values ==> w in old(cache.entries.Values) || fresh(w)
    {
      settings := ChooseSettings(camera, env);
      cameraInfo.Reset(camera, settings, features.flags, cache);
    }

    /**
     * `windowResize`: nothing until the utility material is loaded; then resolve the features,
     * the settings and the camera info, declare the render window and let each builder declare
     * its resources in order.
     */
    method WindowResize(rec: Recorder, device: Device, data: SceneData, camera: Camera,
                        nativeWidth: int, nativeHeight: int, helpers: Helpers, env: Environment,
                        jitter: JitterValue, cache: WindowInfoCache)
      requires Valid() && cache.Valid() && camera.window.Some?
      modifies this, features, cameraInfo, cache, cache.entries.Values, rec, postPass.taa
      ensures Valid() && cache.Valid()
      ensures !env.utilMtl ==> unchanged(this, features, cameraInfo, rec, postPass.taa)
                               && cache.Sizes() == old(cache.Sizes())
      ensures env.utilMtl ==>
                features.flags == ResolveFeatures(device, data)
                && settings == ChooseSettings(camera, env)
                && profileCamera == old(profileCamera)
                && cameraInfo.camera == Some(camera)
                && cameraInfo.size == SetSize(camera.window.value.renderWindowId,
                                              NativeSize(camera.window.value.width),
                                              NativeSize(camera.window.value.height), EffectiveScale(settings))
                && cameraInfo.flags == DeriveFlags(camera, settings, features.flags)
                && cache.Sizes() == RefreshedSizes(old(cache.Sizes()), camera.window.value, settings)
                && postPass.taa.State() == Resized(old(postPass.taa.State()))
                && rec.log == old(rec.log).(resources := ResizedOnto(
                     old(rec.log.resources) + [WindowResource(cameraInfo.State(), nativeWidth, nativeHeight)],
                     FrameOf(helpers, env, jitter), 1, passBuilders))
    {
      if !env.utilMtl {
        return;
      }
      features.Reset(device, data);
      UpdateSettingsAndInfo(camera, env, cache);
      rec.Declare(WindowResource(cameraInfo.State(), nativeWidth, nativeHeight));
      ResizeBuilders(rec, FrameOf(helpers, env, jitter));
    }

    /** The `windowResize` loop over the builders. */
    method ResizeBuilders(rec: Recorder, f: Frame)
      requires Valid()
      modifies rec, postPass.taa
      ensures Valid()
      ensures rec.log == old(rec.log).(resources := ResizedOnto(old(rec.log.resources), f, 1, passBuilders))
      ensures postPass.taa.State() == Resized(old(postPass.taa.State()))
    {
      assert PostBuilder in passBuilders by {
        assert passBuilders[3] == PostBuilder;
      }
      ResizeEach(rec, f, passBuilders);
    }

    /** Each builder of `bs` in turn; the TAA history is reset once the post builder has run. */
    method ResizeEach(rec: Recorder, f: Frame, bs: seq<BuilderKind>)
      modifies rec, postPass.taa
      ensures rec.log == old(rec.log).(resources := ResizedOnto(old(rec.log.resources), f, 1, bs))
      ensures postPass.taa.State() == if PostBuilder in bs then Resized(old(postPass.taa.State()))
                                      else old(postPass.taa.State())
    {
      ghost var log0, taa0 := rec.log, postPass.taa.State();
      for i := 0 to |bs|
        invariant rec.log == log0.(resources := ResizedOnto(log0.resources, f, 1, bs[..i]))
        invariant postPass.taa.State() == if PostBuilder in bs[..i] then Resized(taa0) else taa0
      {
        ResizeStep(rec, f, bs, i, log0, taa0);
      }
      assert bs[..|bs|] == bs;
    }

    /** One turn of the `windowResize` loop: builder `i` of `bs`. */
    method ResizeStep(rec: Recorder, f: Frame, bs: seq<BuilderKind>, i: nat, ghost log0: Log, ghost taa0: TaaState)
      requires i < |bs|
      requires rec.log == log0.(resources := ResizedOnto(log0.resources, f, 1, bs[..i]))
      requires postPass.taa.State() == if PostBuilder in bs[..i] then Resized(taa0) else taa0
      modifies rec, postPass.taa
      ensures rec.log == log0.(resources := ResizedOnto(log0.resources, f, 1, bs[..i + 1]))
      ensures postPass.taa.State() == if PostBuilder in bs[..i + 1] then Resized(taa0) else taa0
    {
      ResizeBuilder(rec, f, bs[i]);
      ResizedOntoStep(log0.resources, f, 1, bs, i);
      PrefixMember(bs, i, PostBuilder);
    }

    /** One builder's `windowResize`. */
    method ResizeBuilder(rec: Recorder, f: Frame, k: BuilderKind)
      modifies rec, postPass.taa
      ensures rec.log == old(rec.log).(resources := old(rec.log.resources) + BuilderResources(f, 1, k))
      ensures postPass.taa.State() == if k == PostBuilder then Resized(old(postPass.taa.State()))
                                      else old(postPass.taa.State())
    {
      match k
      case PreBuilder => prePass.WindowResize(rec, f);
      case ShadowBuilder => shadowPass.WindowResize(rec, f, features);
      case MainBuilder => mainPass.WindowResize(rec, f);
      case PostBuilder => postPass.WindowResize(rec, f);
      case UiBuilder =>
    }

    /**
     * `setup`: nothing until the utility material is loaded; then pick the profile camera and
     * render each camera that has a scene and a window, in list order.
     */
    method Setup(rec: Recorder, cameras: seq<Camera>, helpers: Helpers, env: Environment, jitter: JitterValue,
                 cache: WindowInfoCache, manager: MainPass.ReflectionProbeManager?)
      requires Valid() && cache.Valid()
      modifies this, rec, cameraInfo, renderingContext, shadowPass, shadowPass.platform, postPass.taa,
               manager, cache, cache.entries.Values
      ensures Valid() && cache.Valid()
      ensures !env.utilMtl ==> unchanged(this, rec, cameraInfo, renderingContext)
      ensures env.utilMtl ==>
                (profileCamera.None? <==> forall i :: 0 <= i < |cameras| ==> !HasSwapchain(cameras[i]))
                && (profileCamera.Some? ==>
                      exists i :: 0 <= i < |cameras| && cameras[i] == profileCamera.value && HasSwapchain(cameras[i])
                                  && forall j :: i < j < |cameras| ==> !HasSwapchain(cameras[j]))
      ensures (forall i :: 0 <= i < |cameras| ==> cameras[i].scene.None? || cameras[i].window.None?) ==>
                rec.log == old(rec.log)
    {
      if !env.utilMtl {
        return;
      }
      profileCamera := DecideProfilerCamera(cameras);
      ghost var chosen := profileCamera;
      for i := 0 to |cameras|
        invariant Valid() && cache.Valid() && profileCamera == chosen
        invariant forall w :: w in cache.entries.Values ==> w in old(cache.entries.Values) || fresh(w)
        invariant (forall j :: 0 <= j < i ==> cameras[j].scene.None? || cameras[j].window.None?) ==>
                    rec.log == old(rec.log)
      {
        var camera := cameras[i];
        if camera.scene.None? || camera.window.None? {
          continue;
        }
        RenderCamera(rec, camera, helpers, env, jitter, cache, manager);
      }
    }

    /**
     * One camera of `setup`: a camera that sees the DEFAULT layer runs the builder chain on a
     * reset context; any other gets the simple pass.
     */
    method RenderCamera(rec: Recorder, camera: Camera, helpers: Helpers, env: Environment, jitter: JitterValue,
                        cache: WindowInfoCache, manager: MainPass.ReflectionProbeManager?)
      requires Valid() && cache.Valid() && camera.scene.Some? && camera.window.Some?
      modifies this, rec, cameraInfo, renderingContext, shadowPass, shadowPass.platform, postPass.taa,
               manager, cache, cache.entries.Values
      ensures Valid() && cache.Valid() && profileCamera == old(profileCamera)
      ensures forall w :: w in cache.entries.Values ==> w in old(cache.entries.Values) || fresh(w)
      ensures settings == ChooseSettings(camera, env) && cameraInfo.camera == Some(camera)
      ensures cameraInfo.flags == DeriveFlags(camera, settings, features.flags)
      ensures cache.Sizes() == RefreshedSizes(old(cache.Sizes()), camera.window.value, settings)
      ensures DefaultLayerBit !in camera.visibility ==>
                rec.log == old(rec.log).(passes := old(rec.log.passes) + [SimplePass(cameraInfo.State(), profileCamera)])
      ensures DefaultLayerBit in camera.visibility ==>
                |rec.log.passes| > |old(rec.log.passes)|
                && renderingContext.colorName == Some(WindowColor(cameraInfo.size.id))
                && renderingContext.depthStencilName == Some(MainPass.MainDepth(FrameOf(helpers, env, jitter)))
                && rec.IsHandle(renderingContext.lastPass)
    {
      UpdateSettingsAndInfo(camera, env, cache);
      ghost var sizes := cache.Sizes();
      if DefaultLayerBit in camera.visibility {
        RunChain(rec, FrameOf(helpers, env, jitter), manager);
      } else {
        BuildSimplePipeline(rec, cameraInfo.State(), profileCamera);
      }
      assert cache.Sizes() == sizes;
    }

    /** The DEFAULT-layer branch: reset the context and run the builder chain on it. */
    method RunChain(rec: Recorder, f: Frame, manager: MainPass.ReflectionProbeManager?)
      requires Valid() && WellFormed(f) && f.features == features.flags
      modifies rec, renderingContext, shadowPass, shadowPass.platform, postPass.taa, manager
      ensures Valid() && |rec.log.passes| > |old(rec.log.passes)|
      ensures renderingContext.colorName == Some(WindowColor(Id(f)))
      ensures renderingContext.depthStencilName == Some(MainPass.MainDepth(f))
      ensures rec.IsHandle(renderingContext.lastPass)
    {
      renderingContext.Reset();
      ghost var prevs, results, sizes := RunBuilders(rec, f, manager);
    }

    /** `_buildSimplePipeline(ppl, cameraInfo)`. */
    method BuildSimplePipeline(rec: Recorder, state: CameraState, profile: Option<Camera>)
      modifies rec
      ensures rec.log == old(rec.log).(passes := old(rec.log.passes) + [SimplePass(state, profile)])
    {
      var base := SimpleBase(state);
      var q := Queue(HintOpaque, "default", None, None, SimpleDraws(state, profile));
      var h := rec.AddPass(base);
      assert base.queues + [q] == [q];
      rec.AddQueue(h, q);
      if IsProfilerLayerCamera(state, profile) {
        rec.ShowStatistics(h);
      }
    }

    /**
     * The builder chain of one camera: each builder's `setup` gets the last pass the chain has
     * produced so far and its result becomes the context's last pass. `prevs[k]` and
     * `results[k]` are what builder `k` was given and gave back, `sizes[k]` the pass count
     * before it.
     */
    method RunBuilders(rec: Recorder, f: Frame, manager: MainPass.ReflectionProbeManager?)
        returns (ghost prevs: seq<Option<nat>>, ghost results: seq<Option<nat>>, ghost sizes: seq<nat>)
      requires Valid() && renderingContext.IsReset() && WellFormed(f) && f.features == features.flags
      modifies rec, renderingContext, shadowPass, shadowPass.platform, postPass.taa, manager
      ensures Valid()
      ensures Chained(passBuilders, |passBuilders|, prevs, results, sizes, |old(rec.log.passes)|)
      ensures sizes[|passBuilders|] == |rec.log.passes|
      ensures renderingContext.lastPass == results[|passBuilders| - 1] && rec.IsHandle(renderingContext.lastPass)
      ensures renderingContext.colorName == Some(WindowColor(Id(f)))
      ensures renderingContext.depthStencilName == Some(MainPass.MainDepth(f))
    {
      NamesAlongDeclared(f);
      prevs, results, sizes := [], [], [|rec.log.passes|];
      for i := 0 to |passBuilders|
        invariant Valid()
        invariant Chained(passBuilders, i, prevs, results, sizes, |old(rec.log.passes)|)
        invariant sizes[i] == |rec.log.passes|
        invariant renderingContext.lastPass == if i == 0 then None else results[i - 1]
        invariant rec.IsHandle(renderingContext.lastPass)
        invariant (renderingContext.colorName, renderingContext.depthStencilName) == NamesAfter(f, passBuilders[..i])
      {
        var prev := renderingContext.lastPass;
        var r := RunBuilder(rec, f, passBuilders[i], prev, manager);
        renderingContext.lastPass := r;
        ChainStep(passBuilders, i, prevs, results, sizes, |old(rec.log.passes)|, prev, r, |rec.log.passes|);
        NamesStep(f, passBuilders, i);
        prevs, results, sizes := prevs + [prev], results + [r], sizes + [|rec.log.passes|];
      }
      assert passBuilders[..|passBuilders|] == passBuilders;
    }

    /** One builder's `setup`, given the last pass so far; the context's last pass is left alone. */
    method RunBuilder(rec: Recorder, f: Frame, k: BuilderKind, prev: Option<nat>,
                      manager: MainPass.ReflectionProbeManager?) returns (r: Option<nat>)
      requires TaaValid(postPass.taa.State()) && WellFormed(f) && f.features == features.flags
      requires rec.IsHandle(prev)
      requires k == PostBuilder ==> renderingContext.colorName.Some?
      modifies rec, renderingContext, shadowPass, shadowPass.platform, postPass.taa, manager
      ensures TaaValid(postPass.taa.State()) && rec.IsHandle(r)
      ensures Handed(k, prev, r, |old(rec.log.passes)|, |rec.log.passes|)
      ensures renderingContext.lastPass == old(renderingContext.lastPass)
      ensures (renderingContext.colorName, renderingContext.depthStencilName)
              == ContextAfter(k, f, (old(renderingContext.colorName), old(renderingContext.depthStencilName)))
    {
      match k
      case PreBuilder => r := RunPre(rec, f, prev);
      case ShadowBuilder => r := RunShadow(rec, f, prev);
      case MainBuilder => r := RunMain(rec, f, prev, manager);
      case PostBuilder => r := RunPost(rec, f, prev);
      case UiBuilder => r := RunUi(rec, f, prev);
    }

    method RunPre(rec: Recorder, f: Frame, prev: Option<nat>) returns (r: Option<nat>)
      modifies rec, renderingContext
      ensures |rec.log.passes| == |old(rec.log.passes)| + 1 && r == Some(|old(rec.log.passes)|)
      ensures renderingContext.lastPass == old(renderingContext.lastPass)
      ensures renderingContext.colorName == old(renderingContext.colorName)
      ensures renderingContext.depthStencilName == Some(PrePass.HandedDepth(f))
    {
      r := prePass.Setup(rec, f, renderingContext, prev);
    }

    method RunShadow(rec: Recorder, f: Frame, prev: Option<nat>) returns (r: Option<nat>)
      requires WellFormed(f) && f.features == features.flags
      modifies rec, shadowPass, shadowPass.platform
      ensures |rec.log.passes| >= |old(rec.log.passes)| && r == prev
    {
      r := shadowPass.Setup(rec, f, features, prev);
    }

    method RunMain(rec: Recorder, f: Frame, prev: Option<nat>, manager: MainPass.ReflectionProbeManager?)
        returns (r: Option<nat>)
      modifies rec, renderingContext, manager
      ensures |rec.log.passes| > |old(rec.log.passes)| && r == Some(|rec.log.passes| - 1)
      ensures renderingContext.lastPass == old(renderingContext.lastPass)
      ensures renderingContext.colorName == Some(MainPass.MainColor(f))
      ensures renderingContext.depthStencilName == Some(MainPass.MainDepth(f))
    {
      ghost var before := |rec.log.passes|;
      ghost var probes := if manager == null then [] else manager.probes;
      ghost var scan := MainPass.Scan(MainPass.ProbeViewOf(f, |shadowPass.lights| > 0), probes, |probes|);
      r := mainPass.Setup(rec, f, renderingContext, shadowPass, features, manager, prev);
      assert |rec.log.passes| == before + |scan.passes| + 1;
    }

    method RunPost(rec: Recorder, f: Frame, prev: Option<nat>) returns (r: Option<nat>)
      requires TaaValid(postPass.taa.State()) && renderingContext.colorName.Some?
      modifies rec, renderingContext, postPass.taa
      ensures TaaValid(postPass.taa.State())
      ensures |rec.log.passes| >= |old(rec.log.passes)|
      ensures r == LastPass(prev, |old(rec.log.passes)|, |rec.log.passes| - |old(rec.log.passes)|)
      ensures renderingContext.lastPass == old(renderingContext.lastPass)
      ensures renderingContext.colorName == Some(WindowColor(Id(f)))
      ensures renderingContext.depthStencilName == old(renderingContext.depthStencilName)
    {
      ghost var before := |rec.log.passes|;
      ghost var ps := PostPass.PostPasses(f, renderingContext.colorName.value,
                                          PostPass.TaaOutcome(postPass.taa.State(), f.cam.camera.viewProj));
      r := postPass.Setup(rec, f, renderingContext, prev);
      assert |rec.log.passes| == before + |ps|;
    }

    method RunUi(rec: Recorder, f: Frame, prev: Option<nat>) returns (r: Option<nat>)
      requires rec.IsHandle(prev)
      modifies rec
      ensures |rec.log.passes| == |old(rec.log.passes)| && r == prev
    {
      r := uiPass.Setup(rec, f, prev);
    }
  }
}
