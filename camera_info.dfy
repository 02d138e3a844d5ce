/**
 * camera-info.ts: the per-camera state the builders read: the window size record (the base
 * class WindowInfo), the flags `reset` derives from the features and the settings, the
 * resource names, the clear-flag tests and the choice of the profiler camera.
 */
module Cameras {
  import opened Wrappers
  import opened Host
  import opened RenderGraph
  import opened Windows
  import opened Utils
  import opened Features

  /** The flags `reset` derives. */
  datatype CameraFlags = CameraFlags(
    hdrEnabled: bool, radianceFormat: Format, ssssEnabled: bool, shadowMapFormat: Format,
    mainLightShadowMapEnabled: bool, mainLightPlanarShadowMapEnabled: bool,
    planarReflectionProbeEnabled: bool, msaaEnabled: bool,
    isMainGameWindow: bool, isGameView: bool)

  /** The field initialisers; the radiance format and the HDR flag start undefined in the host. */
  const InitialFlags := CameraFlags(false, RGBA8, false, RGBA8, false, false, false, false, false, false)

  /** The camera renders to a window that has a swapchain. */
  predicate HasSwapchain(camera: Camera) {
    camera.window.Some? && camera.window.value.hasSwapchain
  }

  /** The camera's scene has a main light whose shadows are enabled. */
  predicate MainLightCastsShadows(camera: Camera) {
    camera.scene.Some? && camera.scene.value.mainLight.Some? && camera.scene.value.mainLight.value.shadowEnabled
  }

  /** The flags `reset(camera, pipeline)` computes from the features and the pipeline settings. */
  function DeriveFlags(camera: Camera, settings: Settings, features: FeatureSet): (f: CameraFlags)
    ensures f.hdrEnabled == features.isHDR
    ensures f.radianceFormat == RGBA16F <==> features.isHDR
    ensures f.radianceFormat == RGBA16F || f.radianceFormat == RGBA8
    ensures f.ssssEnabled == features.ssssEnabled && f.shadowMapFormat == features.shadowMapFormat
    ensures f.mainLightShadowMapEnabled <==>
              features.shadowEnabled && !features.usePlanarShadow && MainLightCastsShadows(camera)
    ensures f.mainLightPlanarShadowMapEnabled <==>
              features.shadowEnabled && features.usePlanarShadow && MainLightCastsShadows(camera)
    ensures !(f.mainLightShadowMapEnabled && f.mainLightPlanarShadowMapEnabled)
    ensures f.isMainGameWindow <==> camera.usage == GameUsage && HasSwapchain(camera)
    ensures f.isGameView <==> f.isMainGameWindow || camera.usage == GameViewUsage
    ensures f.planarReflectionProbeEnabled <==>
              f.isMainGameWindow || camera.usage == SceneViewUsage || camera.usage == GameViewUsage
    ensures f.isMainGameWindow ==> f.isGameView && f.planarReflectionProbeEnabled
    ensures f.msaaEnabled <==> settings.msaa.enabled && !features.isWebGL1
  {
    var shadowedMainLight := camera.scene.Some? && camera.scene.value.mainLight.Some?
                             && camera.scene.value.mainLight.value.shadowEnabled;
    var mainGameWindow := camera.usage == GameUsage && HasSwapchain(camera);
    CameraFlags(
      hdrEnabled := features.isHDR,
      radianceFormat := if features.isHDR then RGBA16F else RGBA8,
      ssssEnabled := features.ssssEnabled,
      shadowMapFormat := features.shadowMapFormat,
      mainLightShadowMapEnabled := features.shadowEnabled && !features.usePlanarShadow && shadowedMainLight,
      mainLightPlanarShadowMapEnabled := features.shadowEnabled && features.usePlanarShadow && shadowedMainLight,
      planarReflectionProbeEnabled := mainGameWindow || camera.usage == SceneViewUsage
                                      || camera.usage == GameViewUsage,
      msaaEnabled := settings.msaa.enabled && !features.isWebGL1,
      isMainGameWindow := mainGameWindow,
      isGameView := mainGameWindow || camera.usage == GameViewUsage)
  }

  /** What the builders read of a reset camera info. */
  datatype CameraState = CameraState(camera: Camera, size: WindowSize, flags: CameraFlags)

  /**
   * The helpers the builders call that are not part of this model: `getTextureName(name)`,
   * the `sceneDepthPacked` name and `pipelineUtils.needOffscreenRT(pipeline, cameraInfo)`.
   */
  datatype Helpers = Helpers(
    textureName: (CameraState, string) -> string,
    sceneDepthPacked: CameraState -> string,
    needOffscreenRT: (Settings, FeatureSet, CameraState) -> bool)

  /**
   * What a builder's `setup` and `windowResize` read besides its own state: the pipeline's
   * settings, features and profile camera (reached through the `builder` argument), the reset
   * camera info, the helpers, the host environment and the value of the shared jitter.
   */
  datatype Frame = Frame(
    settings: Settings, features: FeatureSet, cam: CameraState, helpers: Helpers,
    env: Environment, profileCamera: Option<Camera>, jitter: JitterValue)

  /** The camera info was reset from this very camera, settings and features. */
  predicate WellFormed(f: Frame) {
    f.cam.flags == DeriveFlags(f.cam.camera, f.settings, f.features)
  }

  /** The render window id carried by the camera's resource names. */
  function Id(f: Frame): nat { f.cam.size.id }

  /** `cameraInfo.getTextureName(name)`. */
  function TextureName(f: Frame, name: string): string { f.helpers.textureName(f.cam, name) }

  /** `cameraInfo.sceneDepthPacked`. */
  function SceneDepthPacked(f: Frame): string { f.helpers.sceneDepthPacked(f.cam) }

  /** `pipelineUtils.needOffscreenRT(builder, cameraInfo)`. */
  function NeedOffscreenRT(f: Frame): bool { f.helpers.needOffscreenRT(f.settings, f.features, f.cam) }

  /** `cameraInfo.mainLight || undefined` as the light of a scene draw. */
  function MainLightOf(camera: Camera): LightRef {
    if camera.scene.Some? && camera.scene.value.mainLight.Some? then MainLightRef else NoLight
  }

  /** `needClearColor`: the mask has the COLOR bit or the bit above STENCIL. */
  function NeedClearColor(camera: Camera): (b: bool)
    ensures b <==> ColorBit in camera.clearFlag || SkyboxBit in camera.clearFlag
  {
    var hit := camera.clearFlag * {ColorBit, SkyboxBit};
    assert hit == {} ==> ColorBit !in hit && SkyboxBit !in hit;
    assert hit != {} ==> var b :| b in hit; b == ColorBit || b == SkyboxBit;
    hit != {}
  }

  /** `needDepthStencil`: the mask has a DEPTH or STENCIL bit. */
  function NeedDepthStencil(camera: Camera): (b: bool)
    ensures b <==> DepthBit in camera.clearFlag || StencilBit in camera.clearFlag
  {
    var hit := camera.clearFlag * DepthStencilBits;
    assert hit == {} ==> DepthBit !in hit && StencilBit !in hit;
    assert hit != {} ==> var b :| b in hit; b == DepthBit || b == StencilBit;
    hit != {}
  }

  /** `isProfilerLayerCamera(profileCamera)`: the profile camera is this very camera. */
  function IsProfilerLayerCamera(state: CameraState, profileCamera: Option<Camera>): (b: bool)
    ensures b <==> profileCamera.Some? && profileCamera.value == state.camera
  {
    profileCamera == Some(state.camera)
  }

  /**
   * `fillViewport`: the camera's normalised viewport scaled to the camera size and rounded,
   * with width and height raised to at least 1.
   */
  function FillViewport(state: CameraState): (v: Viewport)
    ensures v.width >= 1 && v.height >= 1
    ensures v.left == Round(state.camera.viewport.x * (state.size.width as real))
    ensures v.top == Round(state.camera.viewport.y * (state.size.height as real))
  {
    var src := state.camera.viewport;
    Viewport(Round(src.x * (state.size.width as real)), Round(src.y * (state.size.height as real)),
             Max(Round(src.width * (state.size.width as real)), 1),
             Max(Round(src.height * (state.size.height as real)), 1))
  }

  /**
   * `decideProfilerCamera(cameras)`: scanning from the back, the first camera whose window has a
   * swapchain, that is the last such camera of the list, or nothing when none has one.
   */
  method DecideProfilerCamera(cameras: seq<Camera>) returns (r: Option<Camera>)
    ensures r.None? <==> forall i :: 0 <= i < |cameras| ==> !HasSwapchain(cameras[i])
    ensures r.Some? ==> exists i :: 0 <= i < |cameras| && cameras[i] == r.value
                                    && HasSwapchain(cameras[i])
                                    && forall j :: i < j < |cameras| ==> !HasSwapchain(cameras[j])
  {
    var i := |cameras| - 1;
    while i >= 0
      invariant -1 <= i < |cameras|
      invariant forall j :: i < j < |cameras| ==> !HasSwapchain(cameras[j])
      decreases i
    {
      var camera := cameras[i];
      if camera.window.Some? && camera.window.value.hasSwapchain {
        return Some(camera);
      }
      i := i - 1;
    }
    return None;
  }

  class CameraInfo {
    /** The camera of the last `reset`, none before the first. */
    var camera: Option<Camera>
    /** The inherited window-info record. */
    var size: WindowSize
    var flags: CameraFlags

    constructor ()
      ensures camera == None && size == UnsetSize && flags == InitialFlags
    {
      camera, size, flags := None, UnsetSize, InitialFlags;
    }

    /** The values the builders read; defined once a camera has been set. */
    function State(): CameraState
      requires camera.Some?
      reads this
    {
      CameraState(camera.value, size, flags)
    }

    /**
     * `reset(camera, pipeline)`: refreshes the cached record of the camera's window, takes the
     * window id and native size from it, scales it by the settings' shading scale and derives
     * the flags. The resulting size depends only on the window and the settings.
     */
    method Reset(c: Camera, settings: Settings, features: FeatureSet, cache: WindowInfoCache)
      requires c.window.Some? && cache.Valid()
      modifies this, cache, cache.entries.Values
      ensures cache.Valid() && c.window.value.renderWindowId in cache.entries
      ensures camera == Some(c)
      ensures size == SetSize(c.window.value.renderWindowId, NativeSize(c.window.value.width),
                              NativeSize(c.window.value.height), EffectiveScale(settings))
      ensures flags == DeriveFlags(c, settings, features)
      ensures cache.Sizes() == RefreshedSizes(old(cache.Sizes()), c.window.value, settings)
      ensures forall w :: w in cache.entries.Values ==> w in old(cache.entries.Values) || fresh(w)
    {
      var windowInfo := cache.UpdateWindowInfo(c.window.value, settings);
      camera := Some(c);
      size := SetSize(windowInfo.id, windowInfo.nativeWidth, windowInfo.nativeHeight,
                      EffectiveScale(settings));
      flags := DeriveFlags(c, settings, features);
    }
  }
}
