/** xq-pipeline-features.ts: capability flags resolved from the device and the scene data. */
module Features {
  import opened Host
  import opened RenderGraph

  /** R32F when that format can be both rendered to and sampled and the API is not WebGL 1. */
  function ShadowMapFormat(device: Device): (f: Format)
    ensures f == R32F <==> (RenderTargetFeature in device.r32fFeatures
                            && SampledTextureFeature in device.r32fFeatures
                            && device.api != WebGL)
    ensures f == R32F || f == RGBA8
  {
    if {RenderTargetFeature, SampledTextureFeature} <= device.r32fFeatures && device.api != WebGL
    then R32F else RGBA8
  }

  /** Depth can be sampled when the depth-stencil format supports sampling and linear filtering. */
  function SupportsDepthSample(depthStencilFeatures: set<FormatFeature>): (b: bool)
    ensures b <==> (SampledTextureFeature in depthStencilFeatures
                    && LinearFilterFeature in depthStencilFeatures)
  {
    {SampledTextureFeature, LinearFilterFeature} <= depthStencilFeatures
  }

  /**
   * The packed platform word: the sign `s` becomes the bit `s * 0.5 + 0.5`, the screen-space
   * bit is shifted into position 1 and or-ed with the clip-space bit.
   */
  function PlatformW(screenSpaceSignY: Sign, clipSpaceSignY: Sign): (w: int)
    ensures w == (if screenSpaceSignY > 0 then 2 else 0) + (if clipSpaceSignY > 0 then 1 else 0)
  {
    var high := (screenSpaceSignY + 1) / 2;
    var low := (clipSpaceSignY + 1) / 2;
    2 * high + low
  }

  /** The packed word determines both signs, so no two sign pairs share one. */
  lemma PlatformWInjective(s1: Sign, c1: Sign, s2: Sign, c2: Sign)
    requires PlatformW(s1, c1) == PlatformW(s2, c2)
    ensures s1 == s2 && c1 == c2
  {
  }

  /** A four-component vector the host passes by reference. */
  class Vec4 {
    var x: real
    var y: real
    var z: real
    var w: real

    constructor (x0: real, y0: real, z0: real, w0: real)
      ensures x == x0 && y == y0 && z == z0 && w == w0
    {
      x, y, z, w := x0, y0, z0, w0;
    }
  }

  /** Every capability flag `reset` resolves, as one value. */
  datatype FeatureSet = FeatureSet(
    isWeb: bool, isWebGL1: bool, isWebGL2: bool, isWebGPU: bool, isMobile: bool,
    isHDR: bool, useFloatOutput: bool, toneMappingType: int,
    shadowEnabled: bool, csmSupported: bool, shadowMapFormat: Format,
    shadowMapWidth: int, shadowMapHeight: int, usePlanarShadow: bool,
    screenSpaceSignY: int, supportDepthSample: bool,
    platformX: real, platformW: int, ssssEnabled: bool)

  /** The field initialisers, before the first `reset`. */
  const InitialFeatures := FeatureSet(
    false, false, false, false, false, false, false, 0, false, false, RGBA8,
    1024, 1024, false, 1, false, 0.0, 0, false)

  /** The flags `reset` derives from the device and the pipeline's scene data. */
  function ResolveFeatures(device: Device, data: SceneData): (f: FeatureSet)
    ensures f.isWeb == !device.isNative && f.isMobile == device.isMobile
    ensures f.isWebGL1 == (device.api == WebGL) && f.isWebGL2 == (device.api == WebGL2)
    ensures f.isWebGPU == (device.api == WebGPU)
    ensures !(f.isWebGL1 && f.isWebGL2) && !(f.isWebGL1 && f.isWebGPU) && !(f.isWebGL2 && f.isWebGPU)
    ensures f.isHDR == data.isHDR && f.useFloatOutput == data.useFloatOutput
    ensures f.toneMappingType == data.toneMappingType && f.ssssEnabled == data.skinEnabled
    ensures f.csmSupported == data.csmSupported && f.shadowEnabled == data.shadowsEnabled
    ensures f.shadowMapWidth == data.shadowMapWidth && f.shadowMapHeight == data.shadowMapHeight
    ensures f.usePlanarShadow <==> data.shadowsEnabled && data.shadowType == PlanarShadowType
    ensures f.usePlanarShadow ==> f.shadowEnabled
    ensures f.shadowMapFormat == ShadowMapFormat(device)
    ensures f.supportDepthSample == SupportsDepthSample(device.depthStencilFeatures)
    ensures f.screenSpaceSignY == device.screenSpaceSignY
    ensures f.platformX == (if f.isMobile then 1.0 else 0.0)
    ensures f.platformW == PlatformW(device.screenSpaceSignY, device.clipSpaceSignY)
  {
    FeatureSet(
      isWeb := !device.isNative,
      isWebGL1 := device.api == WebGL,
      isWebGL2 := device.api == WebGL2,
      isWebGPU := device.api == WebGPU,
      isMobile := device.isMobile,
      isHDR := data.isHDR,
      useFloatOutput := data.useFloatOutput,
      toneMappingType := data.toneMappingType,
      shadowEnabled := data.shadowsEnabled,
      csmSupported := data.csmSupported,
      shadowMapFormat := ShadowMapFormat(device),
      shadowMapWidth := data.shadowMapWidth,
      shadowMapHeight := data.shadowMapHeight,
      usePlanarShadow := data.shadowsEnabled && data.shadowType == PlanarShadowType,
      screenSpaceSignY := device.screenSpaceSignY,
      supportDepthSample := SupportsDepthSample(device.depthStencilFeatures),
      platformX := if device.isMobile then 1.0 else 0.0,
      platformW := PlatformW(device.screenSpaceSignY, device.clipSpaceSignY),
      ssssEnabled := data.skinEnabled)
  }

  class PipelineFeatures {
    /** The resolved flags; the getters of the host class read them from here. */
    var flags: FeatureSet
    /** Never reassigned: one spot-light shadow map on every platform. */
    const mobileMaxSpotLightShadowMaps: int := 1

    constructor ()
      ensures flags == InitialFeatures
    {
      flags := InitialFeatures;
    }

    /** `clipSpaceSignY` returns the packed platform word, not the device's clip-space sign. */
    function ClipSpaceSignY(): int
      reads this
    {
      flags.platformW
    }

    /** Overwrites every capability flag from the device and the scene data. */
    method Reset(device: Device, data: SceneData)
      modifies this
      ensures flags == ResolveFeatures(device, data)
    {
      flags := ResolveFeatures(device, data);
    }

    /** Writes the platform flag into `x` and the packed signs into `w`; `y` and `z` are kept. */
    method FillPlatformVec4(v: Vec4) returns (r: Vec4)
      modifies v
      ensures r == v
      ensures v.x == flags.platformX && v.w == flags.platformW as real
      ensures v.y == old(v.y) && v.z == old(v.z)
    {
      v.x := flags.platformX;
      v.w := flags.platformW as real;
      r := v;
    }
  }
}
