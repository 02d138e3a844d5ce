/**
 * xq-ssspass.ts: screen-space subsurface scattering. With SSSS enabled the diffuse colour is
 * copied out, blurred vertically and horizontally in a ping-pong between two targets, and
 * copied back; a specular pass then draws the transparent objects over the context colour.
 */
module SssPass {
  import opened Wrappers
  import opened Host
  import opened RenderGraph
  import opened Cameras
  import opened Contexts
  import opened Features

  const RenderOrder: int := 400

  /** The external texture holding the scattering kernel. */
  const KernelLut := "sssKernelLut"

  function Blurred(f: Frame): string { TextureName(f, "sssBlurred") }
  function Blend(f: Frame): string { TextureName(f, "sssBlend") }

  /** `windowResize`: the two ping-pong targets at the camera size. */
  function SssResources(f: Frame): seq<Resource> {
    [Resource(RenderTargetResource, Blurred(f), R11G11B10F, f.cam.size.width, f.cam.size.height, Managed),
     Resource(RenderTargetResource, Blend(f), R11G11B10F, f.cam.size.width, f.cam.size.height, Managed)]
  }

  /** What `updateGlobalResources` adds to the log. */
  function GlobalLog(log: Log, f: Frame): Log {
    if !f.cam.flags.ssssEnabled then log
    else if f.settings.skin.hasLutTexture then log.(externals := log.externals + {KernelLut})
    else log.(warnings := log.warnings + [SssLutMissing])
  }

  /**
   * The kernel is registered exactly when SSSS is enabled and the settings have a LUT texture;
   * SSSS without one only warns; without SSSS nothing is recorded.
   */
  lemma GlobalLogCases(log: Log, f: Frame)
    ensures var after := GlobalLog(log, f);
            after.resources == log.resources && after.passes == log.passes && after.globals == log.globals
            && (KernelLut in after.externals <==>
                  KernelLut in log.externals || (f.cam.flags.ssssEnabled && f.settings.skin.hasLutTexture))
            && (after.warnings == log.warnings + [SssLutMissing] <==>
                  f.cam.flags.ssssEnabled && !f.settings.skin.hasLutTexture)
            && (!f.cam.flags.ssssEnabled ==> after == log)
  {
    var after := GlobalLog(log, f);
    if f.cam.flags.ssssEnabled && !f.settings.skin.hasLutTexture {
      assert after.warnings == log.warnings + [SssLutMissing];
    } else {
      assert |after.warnings| == |log.warnings|;
    }
  }

  /** A `screen-blit` copy of `input` into `output` over the viewport. */
  function CopyPass(name: string, v: Viewport, input: string, output: string): Pass {
    NewPass(name, "screen-blit", v.width, v.height)
      .(viewport := Some(v),
        targets := [Attachment(output, LoadOp.Discard, Store, NoClearValue)],
        textures := [Binding(input, "inputTexture")],
        queues := [Queue(HintNone, "default", None, None, [Quad(UtilMaterial, 1)])])
  }

  /**
   * A blur of `input` into `output` with layout `layout`: it samples the packed scene depth and,
   * when `lut` holds, the kernel, and takes the scattering info `info` as `sssInfo`.
   */
  function BlurPass(name: string, layout: string, v: Viewport, input: string, output: string,
                    depth: string, lut: bool, info: (real, real, real, real), passIndex: int): Pass {
    NewPass(name, layout, v.width, v.height)
      .(viewport := Some(v),
        targets := [Attachment(output, LoadOp.Discard, Store, NoClearValue)],
        textures := [Binding(input, "colorInput"), Binding(depth, "depthInput")]
                    + (if lut then [Binding(KernelLut, KernelLut)] else []),
        uniforms := [Vec4Uniform("sssInfo", info.0, info.1, info.2, info.3)],
        queues := [Queue(HintNone, "default", None, None, [Quad(UtilMaterial, passIndex)])])
  }

  /** The four passes of the scattering: copy out, blur Y, blur X, copy back. */
  function ScatterPasses(v: Viewport, color: string, blurred: string, blend: string, depth: string,
                         lut: bool, info: (real, real, real, real)): (ps: seq<Pass>)
    ensures |ps| == 4
  {
    [CopyPass("sssCopyDiffuse", v, color, blurred),
     BlurPass("ssssBlurY", "ssss-blur-y", v, blurred, blend, depth, lut, info, 3),
     BlurPass("ssssBlurX", "ssss-blur-x", v, blend, blurred, depth, lut, info, 2),
     CopyPass("sssCopyBlurred", v, blurred, color)]
  }

  /** The specular pass: it loads the context colour and depth-stencil and draws transparent objects. */
  function SpecularPass(v: Viewport, camera: Camera, color: string, ds: string): Pass {
    NewPass("sssSpecular", "default", v.width, v.height)
      .(viewport := Some(v),
        targets := [Attachment(color, Load, Store, NoClearValue)],
        depthStencil := Some(Attachment(ds, Load, StoreOp.Discard, DefaultDepthClear)),
        queues := [Queue(HintBlend, "specular-pass", None, None,
                         [SceneDraw(camera.id, {SceneBlend}, MainLightOf(camera), CameraFrustum)])])
  }

  /** Everything `setup` records for the scattering info `info`, the scatter passes only with SSSS. */
  function SetupPasses(f: Frame, color: string, ds: string, lut: bool, info: (real, real, real, real)): (ps: seq<Pass>)
    ensures |ps| == (if f.cam.flags.ssssEnabled then 5 else 1)
  {
    var v := FillViewport(f.cam);
    (if f.cam.flags.ssssEnabled then ScatterPasses(v, color, Blurred(f), Blend(f), SceneDepthPacked(f), lut, info)
     else [])
    + [SpecularPass(v, f.cam.camera, color, ds)]
  }

  /** The names the kernel may be bound under. */
  function KernelSet(lut: bool): set<string> { if lut then {KernelLut} else {} }

  /** What a blur pass writes and samples. */
  lemma BlurPassShape(name: string, layout: string, v: Viewport, input: string, output: string,
                      depth: string, lut: bool, info: (real, real, real, real), passIndex: int)
    ensures var p := BlurPass(name, layout, v, input, output, depth, lut, info, passIndex);
            Written(p) == {output} && Sampled(p) == {input, depth} + KernelSet(lut)
  {
    var p := BlurPass(name, layout, v, input, output, depth, lut, info, passIndex);
    assert (set k | 0 <= k < |p.targets| :: p.targets[k].name) == {output} by {
      assert p.targets[0].name == output;
    }
    assert p.textures[0].resource == input && p.textures[1].resource == depth;
    if lut {
      assert p.textures[2].resource == KernelLut;
    }
    assert Sampled(p) == {input, depth} + KernelSet(lut);
  }

  /** What a copy pass writes and samples. */
  lemma CopyPassShape(name: string, v: Viewport, input: string, output: string)
    ensures Written(CopyPass(name, v, input, output)) == {output}
    ensures Sampled(CopyPass(name, v, input, output)) == {input}
  {
    var p := CopyPass(name, v, input, output);
    assert (set k | 0 <= k < |p.targets| :: p.targets[k].name) == {output} by {
      assert p.targets[0].name == output;
    }
    assert Sampled(p) == {input} by {
      assert p.textures[0].resource == input;
    }
  }

  /**
   * The ping-pong: the diffuse colour goes to the blurred target, the vertical blur reads it and
   * writes the blend target, the horizontal blur reads that and writes the blurred target, and
   * the last copy writes it back over the context colour. Each pass samples what the one before
   * it wrote; the kernel is sampled by the two blurs exactly when it is bound.
   */
  lemma ScatterOrder(v: Viewport, color: string, blurred: string, blend: string, depth: string,
                     lut: bool, info: (real, real, real, real))
    ensures var ps := ScatterPasses(v, color, blurred, blend, depth, lut, info);
            Written(ps[0]) == {blurred} && Sampled(ps[0]) == {color}
            && Written(ps[1]) == {blend} && Sampled(ps[1]) == {blurred, depth} + KernelSet(lut)
            && Written(ps[2]) == {blurred} && Sampled(ps[2]) == {blend, depth} + KernelSet(lut)
            && Written(ps[3]) == {color} && Sampled(ps[3]) == {blurred}
  {
    CopyPassShape("sssCopyDiffuse", v, color, blurred);
    BlurPassShape("ssssBlurY", "ssss-blur-y", v, blurred, blend, depth, lut, info, 3);
    BlurPassShape("ssssBlurX", "ssss-blur-x", v, blend, blurred, depth, lut, info, 2);
    CopyPassShape("sssCopyBlurred", v, blurred, color);
  }

  /**
   * When the context colour, the two ping-pong targets, the packed depth and the kernel name are
   * five different names, no pass of the scattering samples the target it writes, each pass
   * samples the target the one before it wrote, and the chain ends by writing its input.
   */
  lemma ScatterNeverReadsItsTarget(v: Viewport, color: string, blurred: string, blend: string, depth: string,
                                   lut: bool, info: (real, real, real, real))
    requires color != blurred && color != blend && blurred != blend
    requires depth != blurred && depth != blend && KernelLut != blurred && KernelLut != blend
    ensures var ps := ScatterPasses(v, color, blurred, blend, depth, lut, info);
            Written(ps[0]) * Sampled(ps[0]) == {} && Written(ps[1]) * Sampled(ps[1]) == {}
            && Written(ps[2]) * Sampled(ps[2]) == {} && Written(ps[3]) * Sampled(ps[3]) == {}
            && Written(ps[0]) <= Sampled(ps[1]) && Written(ps[1]) <= Sampled(ps[2])
            && Written(ps[2]) <= Sampled(ps[3]) && Written(ps[3]) == Sampled(ps[0])
  {
    ScatterOrder(v, color, blurred, blend, depth, lut, info);
  }

  /**
   * The kernel reaches the blurs only once registered: with it absent from the log the blurs
   * do not sample it, and once `updateGlobalResources` registered it they do.
   */
  lemma KernelBoundOnceRegistered(log: Log, f: Frame, v: Viewport, color: string,
                                  info: (real, real, real, real))
    requires KernelLut != Blurred(f) && KernelLut != Blend(f) && KernelLut != SceneDepthPacked(f)
    ensures var ps := ScatterPasses(v, color, Blurred(f), Blend(f), SceneDepthPacked(f),
                                    KernelLut in GlobalLog(log, f).externals, info);
            (KernelLut in Sampled(ps[1]) <==> KernelLut in GlobalLog(log, f).externals)
            && (KernelLut in Sampled(ps[2]) <==> KernelLut in GlobalLog(log, f).externals)
            && (f.cam.flags.ssssEnabled && f.settings.skin.hasLutTexture ==> KernelLut in Sampled(ps[1]))
  {
    GlobalLogCases(log, f);
    ScatterOrder(v, color, Blurred(f), Blend(f), SceneDepthPacked(f), KernelLut in GlobalLog(log, f).externals, info);
  }

  /**
   * The specular pass loads both context names and draws over them: it writes exactly the
   * context colour and depth-stencil, only stores the colour, and samples nothing.
   */
  lemma SpecularLoadsContext(v: Viewport, camera: Camera, color: string, ds: string)
    ensures var p := SpecularPass(v, camera, color, ds);
            Written(p) == {color, ds} && Sampled(p) == {}
            && p.targets[0].load == Load && p.targets[0].store == Store
            && p.depthStencil.value.load == Load && p.depthStencil.value.store == StoreOp.Discard
  {
    var p := SpecularPass(v, camera, color, ds);
    assert (set k | 0 <= k < |p.targets| :: p.targets[k].name) == {color} by {
      assert p.targets[0].name == color;
    }
  }

  /**
   * Every pass `setup` adds writes one of the two ping-pong targets `windowResize` declared, or
   * the context colour and depth-stencil it was handed.
   */
  lemma SssWritesDeclared(f: Frame, color: string, ds: string, lut: bool, info: (real, real, real, real))
    ensures WritesWithin(SetupPasses(f, color, ds, lut, info), DeclaredNames(SssResources(f)) + {color, ds})
  {
    var names := DeclaredNames(SssResources(f)) + {color, ds};
    var v := FillViewport(f.cam);
    assert SssResources(f)[0].name == Blurred(f) && SssResources(f)[1].name == Blend(f);
    var scatter := if f.cam.flags.ssssEnabled
                   then ScatterPasses(v, color, Blurred(f), Blend(f), SceneDepthPacked(f), lut, info) else [];
    if f.cam.flags.ssssEnabled {
      ScatterOrder(v, color, Blurred(f), Blend(f), SceneDepthPacked(f), lut, info);
    }
    SpecularLoadsContext(v, f.cam.camera, color, ds);
    WritesWithinConcat(scatter, [SpecularPass(v, f.cam.camera, color, ds)], names);
  }

  class SSSPassBuilder {
    /** `_viewport`, filled from the camera at every `setup`. */
    var viewport: Viewport
    /** `_sssInfo`; only its `x` is ever written. */
    const sssInfo: Vec4

    constructor ()
      ensures viewport == Viewport(0, 0, 1, 1)
      ensures fresh(sssInfo) && sssInfo.x == 0.0 && sssInfo.y == 0.0 && sssInfo.z == 0.0 && sssInfo.w == 0.0
    {
      viewport := Viewport(0, 0, 1, 1);
      sssInfo := new Vec4(0.0, 0.0, 0.0, 0.0);
    }

    /** `windowResize`: declares the two ping-pong targets. */
    method WindowResize(rec: Recorder, f: Frame)
      modifies rec
      ensures rec.log == old(rec.log).(resources := old(rec.log.resources) + SssResources(f))
    {
      rec.Declare(Resource(RenderTargetResource, Blurred(f), R11G11B10F, f.cam.size.width, f.cam.size.height, Managed));
      rec.Declare(Resource(RenderTargetResource, Blend(f), R11G11B10F, f.cam.size.width, f.cam.size.height, Managed));
    }

    /** `updateGlobalResources`: registers the kernel LUT, or warns that the settings lack it. */
    method UpdateGlobalResources(rec: Recorder, f: Frame)
      modifies rec
      ensures rec.log == GlobalLog(old(rec.log), f)
    {
      if f.cam.flags.ssssEnabled {
        if !f.settings.skin.hasLutTexture {
          rec.Warn(SssLutMissing);
        } else {
          rec.AddExternalTexture(KernelLut);
        }
      }
    }

    /**
     * `setup`: with SSSS, the quality goes into the info vector and the four scattering passes
     * run on the context colour, binding the kernel if it was registered; then the specular pass
     * is added and returned. The context is not changed.
     */
    method Setup(rec: Recorder, f: Frame, ctx: RenderingContext, prev: Option<nat>) returns (r: Option<nat>)
      requires ctx.colorName.Some? && ctx.depthStencilName.Some?
      requires f.cam.flags.ssssEnabled ==> f.env.utilMtl
      modifies rec, this, sssInfo
      ensures viewport == FillViewport(f.cam)
      ensures sssInfo.x == (if f.cam.flags.ssssEnabled then f.settings.skin.sssQuality else old(sssInfo.x))
      ensures sssInfo.y == old(sssInfo.y) && sssInfo.z == old(sssInfo.z) && sssInfo.w == old(sssInfo.w)
      ensures var ps := SetupPasses(f, ctx.colorName.value, ctx.depthStencilName.value,
                                    KernelLut in old(rec.log.externals),
                                    (sssInfo.x, sssInfo.y, sssInfo.z, sssInfo.w));
              rec.log == old(rec.log).(passes := old(rec.log.passes) + ps)
              && r == Some(|old(rec.log.passes)| + |ps| - 1)
    {
      viewport := FillViewport(f.cam);
      var color, ds := ctx.colorName.value, ctx.depthStencilName.value;
      if f.cam.flags.ssssEnabled {
        sssInfo.x := f.settings.skin.sssQuality;
        AddScatterPasses(rec, viewport, color, Blurred(f), Blend(f), SceneDepthPacked(f),
                         (sssInfo.x, sssInfo.y, sssInfo.z, sssInfo.w));
      }
      var h := rec.AddPass(SpecularPass(viewport, f.cam.camera, color, ds));
      return Some(h);
    }

    /** The four scattering passes, the blurs binding the kernel when it is registered. */
    method AddScatterPasses(rec: Recorder, v: Viewport, color: string, blurred: string, blend: string,
                            depth: string, info: (real, real, real, real))
      modifies rec
      ensures rec.log == old(rec.log).(passes := old(rec.log.passes)
                + ScatterPasses(v, color, blurred, blend, depth, KernelLut in old(rec.log.externals), info))
    {
      var lut := rec.HasExternalTexture(KernelLut);
      var _ := rec.AddPass(CopyPass("sssCopyDiffuse", v, color, blurred));
      var _ := rec.AddPass(BlurPass("ssssBlurY", "ssss-blur-y", v, blurred, blend, depth, lut, info, 3));
      var _ := rec.AddPass(BlurPass("ssssBlurX", "ssss-blur-x", v, blend, blurred, depth, lut, info, 2));
      var _ := rec.AddPass(CopyPass("sssCopyBlurred", v, blurred, color));
    }
  }
}
