/**
 * Values the host engine supplies to the pipeline: cameras, windows, scenes and their lights,
 * reflection probes, the device's capabilities, the scene data and the pipeline settings record.
 * All of them are read-only from the pipeline's point of view.
 */
module Host {
  import opened Wrappers

  /**
   * The bits of a camera's clear mask: gfx.ClearFlagBit COLOR (1), DEPTH (2) and STENCIL (4),
   * and the bit above STENCIL (8) that the scene camera uses for the skybox. A mask becomes the
   * set of its bits, so `mask & bits` is the intersection `mask * bits`.
   */
  datatype ClearBit = ColorBit | DepthBit | StencilBit | SkyboxBit

  /** gfx.ClearFlagBit.DEPTH_STENCIL. */
  const DepthStencilBits: set<ClearBit> := {DepthBit, StencilBit}

  /** Layers.Enum.DEFAULT is the layer bit 1 << 30; a layer mask becomes the set of its bit positions. */
  const DefaultLayerBit: nat := 30

  datatype CameraUsage = EditorUsage | GameViewUsage | SceneViewUsage | PreviewUsage | GameUsage

  datatype LightKind = Directional | Sphere | Spot | Point | RangedDirectional | UnknownLight

  /** A local light of the scene, identified by `id`. */
  datatype Light = Light(id: nat, kind: LightKind, baked: bool, shadowEnabled: bool)

  /** renderer.scene.CSMLevel: one to four cascades. */
  type CsmLevel = x: int | 1 <= x <= 4 witness 1

  datatype MainLight = MainLight(shadowEnabled: bool, csmLevel: CsmLevel, shadowFixedArea: bool)

  datatype Scene = Scene(
    mainLight: Option<MainLight>,
    spotLights: seq<Light>, sphereLights: seq<Light>,
    pointLights: seq<Light>, rangedDirLights: seq<Light>)

  datatype Window = Window(renderWindowId: nat, width: real, height: real, hasSwapchain: bool)

  /** The camera's normalised viewport rectangle. */
  datatype Rect = Rect(x: real, y: real, width: real, height: real)

  /**
   * A view-projection matrix, abstracted to a token: two matrices compare equal (`Mat4.equals`)
   * exactly when their tokens do.
   */
  datatype Matrix = Matrix(token: nat)

  predicate MatrixEquals(a: Matrix, b: Matrix) { a.token == b.token }

  datatype Msaa = Msaa(enabled: bool, sampleCount: int)
  datatype Bloom = Bloom(enabled: bool, hasMaterial: bool, threshold: real, intensity: real, renderOrder: int)
  datatype ToneMapping = ToneMapping(hasMaterial: bool, renderOrder: int)
  datatype Lut = Lut(width: int, height: int)
  datatype ColorGrading = ColorGrading(enabled: bool, hasMaterial: bool, colorGradingMap: Option<Lut>,
                                       contribute: real, renderOrder: int)
  datatype Fxaa = Fxaa(enabled: bool, hasMaterial: bool, renderOrder: int)
  datatype Fsr = Fsr(enabled: bool, hasMaterial: bool, sharpness: real)
  datatype Skin = Skin(sssQuality: real, hasLutTexture: bool)

  /** The pipeline settings record (XQPipelineSettings), read-only. */
  datatype Settings = Settings(
    enableShadingScale: bool, shadingScale: real, msaa: Msaa,
    bloom: Bloom, toneMapping: ToneMapping, colorGrading: ColorGrading,
    fxaa: Fxaa, fsr: Fsr, skin: Skin)

  /** Camera identity is its `id`; the frustum tests are given as the ids of the lights that pass. */
  datatype Camera = Camera(
    id: nat, usage: CameraUsage, scene: Option<Scene>, window: Option<Window>,
    visibility: set<nat>, clearFlag: set<ClearBit>, clearDepth: real, clearStencil: int,
    viewport: Rect, viewProj: Matrix, visibleLights: set<nat>,
    hasGeometryRenderer: bool, pipelineSettings: Option<Settings>)

  /** Whether a light's bounds intersect the camera frustum (sphere or AABB test). */
  predicate InFrustum(camera: Camera, light: Light) { light.id in camera.visibleLights }

  datatype ProbeKind = PlanarProbe | CubeProbe

  datatype Probe = Probe(needRender: bool, kind: ProbeKind, areaWidth: real, areaHeight: real,
                         cubeFaces: nat, camera: Camera)

  datatype GfxApi = UnknownApi | Gles2 | Gles3 | Metal | Vulkan | Nvn | WebGL | WebGL2 | WebGPU

  type Sign = x: int | x == -1 || x == 1 witness 1

  /** The bits of gfx.FormatFeatureBit the core tests; a feature mask becomes the set of its bits. */
  datatype FormatFeature = RenderTargetFeature | SampledTextureFeature | LinearFilterFeature

  datatype Device = Device(
    api: GfxApi, isNative: bool, isMobile: bool,
    r32fFeatures: set<FormatFeature>, depthStencilFeatures: set<FormatFeature>,
    screenSpaceSignY: Sign, clipSpaceSignY: Sign)

  datatype ShadowType = PlanarShadowType | ShadowMapType

  /** pipeline.pipelineSceneData and the macro queries `reset` consults. */
  datatype SceneData = SceneData(
    isHDR: bool, useFloatOutput: bool, toneMappingType: int, skinEnabled: bool,
    csmSupported: bool, shadowsEnabled: bool, shadowType: ShadowType,
    shadowMapWidth: int, shadowMapHeight: int)

  /**
   * The rest of the host environment: whether `builtinResMgr` holds utilMtl, whether this is an
   * editor build (cc/env EDITOR) or a debug build (cc/env DEBUG), the editor override settings
   * and the default settings.
   */
  datatype Environment = Environment(
    utilMtl: bool, editor: bool, debug: bool, editorSettings: Option<Settings>, defaultSettings: Settings)

  /** `Math.floor(x)` as an integer. */
  function Floor(x: real): int { x.Floor }

  /** `Math.trunc(x)`: rounds toward zero. */
  function Trunc(x: real): (r: int)
    ensures x >= 0.0 ==> r == x.Floor
    ensures (r as real) <= x < (r as real) + 1.0 || (r as real) - 1.0 < x <= (r as real)
  {
    if x >= 0.0 then x.Floor else -((-x).Floor)
  }

  /** `Math.round(x)`: rounds half-way values up. */
  function Round(x: real): int { (x + 0.5).Floor }

  function Max(a: int, b: int): int { if a >= b then a else b }
  function Min(a: int, b: int): int { if a <= b then a else b }
}
