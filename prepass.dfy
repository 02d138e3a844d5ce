/**
 * xq-prepass.ts: the depth prepass. It declares the packed scene depth, a transient depth
 * buffer and, when the camera renders off screen, the persistent depth-stencil the later
 * passes share; its single pass writes the packed depth and hands a depth-stencil name on.
 */
module PrePass {
  import opened Wrappers
  import opened Host
  import opened RenderGraph
  import opened Names
  import opened Cameras
  import opened Contexts

  const RenderOrder: int := 0

  /** `windowResize`: what is declared, in declaration order, all at the camera size. */
  function PrepassResources(f: Frame): seq<Resource> {
    var w, h := f.cam.size.width, f.cam.size.height;
    [Resource(RenderTargetResource, SceneDepthPacked(f), RGBA16F, w, h, Persistent),
     Resource(DepthStencilResource, TextureName(f, "prepassDepth"), DepthStencilFormat, w, h, Memoryless)]
    + (if NeedOffscreenRT(f) then [Resource(DepthStencilResource, DepthStencil(Id(f)), DepthStencilFormat, w, h, Persistent)]
       else [])
  }

  /** The depth-stencil name `setup` hands to the next builders. */
  function HandedDepth(f: Frame): string {
    if NeedOffscreenRT(f) then DepthStencil(Id(f)) else WindowDepthStencil(Id(f))
  }

  /** The prepass before its queue: it clears the packed depth and the transient depth. */
  function PrepassBase(f: Frame): Pass {
    NewPass("prepassDepth", "default", f.cam.size.width, f.cam.size.height)
      .(viewport := Some(FillViewport(f.cam)),
        targets := [Attachment(SceneDepthPacked(f), Clear, Store, ClearTransparent)],
        depthStencil := Some(Attachment(TextureName(f, "prepassDepth"), Clear, StoreOp.Discard,
                                        ClearDepthStencil(1.0, 0, DepthStencilBits))))
  }

  /** The queue drawing the camera's opaque and masked objects. */
  function PrepassQueue(f: Frame): Queue {
    Queue(HintOpaque, "prepass", None, None,
          [SceneDraw(f.cam.camera.id, {SceneOpaque, SceneMask}, NoLight, CameraFrustum)])
  }

  /** The recorded prepass. */
  function Prepass(f: Frame): Pass {
    PrepassBase(f).(queues := [PrepassQueue(f)])
  }

  /**
   * The packed depth and the transient depth are always declared at the camera size; the
   * persistent offscreen depth-stencil is declared exactly when the camera needs offscreen
   * targets.
   */
  lemma PrepassDeclarations(f: Frame)
    ensures var rs := PrepassResources(f);
            |rs| >= 2
            && rs[0] == Resource(RenderTargetResource, SceneDepthPacked(f), RGBA16F,
                                 f.cam.size.width, f.cam.size.height, Persistent)
            && rs[1].kind == DepthStencilResource && rs[1].residency == Memoryless
            && rs[1].name == TextureName(f, "prepassDepth")
            && (forall r :: r in rs ==> r.width == f.cam.size.width && r.height == f.cam.size.height)
    ensures (exists r :: r in PrepassResources(f) && r.kind == DepthStencilResource && r.residency == Persistent)
            <==> NeedOffscreenRT(f)
  {
    var rs := PrepassResources(f);
    if NeedOffscreenRT(f) {
      assert rs[2] in rs;
    }
  }

  /**
   * The depth name handed on is the offscreen depth-stencil declared by `windowResize` when the
   * camera renders off screen, and the window's own otherwise; the two never coincide.
   */
  lemma HandedDepthDeclared(f: Frame)
    ensures NeedOffscreenRT(f) ==>
              exists r :: r in PrepassResources(f) && r.name == HandedDepth(f)
                          && r.kind == DepthStencilResource && r.residency == Persistent
    ensures HandedDepth(f) == WindowDepthStencil(Id(f)) <==> !NeedOffscreenRT(f)
  {
    CameraNamesDistinct(3, 1, Id(f), Id(f));
    if NeedOffscreenRT(f) {
      assert PrepassResources(f)[2] in PrepassResources(f);
    }
  }

  /**
   * The pass samples nothing, writes only what `windowResize` declared, and clears the depth
   * to 1 and the stencil to 0.
   */
  lemma PrepassWritesDeclared(f: Frame)
    ensures Sampled(Prepass(f)) == {}
    ensures Written(Prepass(f)) == {SceneDepthPacked(f), TextureName(f, "prepassDepth")}
    ensures forall name :: name in Written(Prepass(f)) ==>
              exists r :: r in PrepassResources(f) && r.name == name
    ensures Prepass(f).depthStencil.value.clear == ClearDepthStencil(1.0, 0, DepthStencilBits)
  {
    var p, rs := Prepass(f), PrepassResources(f);
    assert (set k | 0 <= k < |p.targets| :: p.targets[k].name) == {SceneDepthPacked(f)} by {
      assert p.targets[0].name == SceneDepthPacked(f);
    }
    assert rs[0] in rs && rs[1] in rs;
  }

  class PrePassBuilder {
    constructor ()
    {
    }

    /** `windowResize`: the packed depth, the transient depth and, off screen, the shared depth. */
    method WindowResize(rec: Recorder, f: Frame)
      modifies rec
      ensures rec.log == old(rec.log).(resources := old(rec.log.resources) + PrepassResources(f))
    {
      var w, h := f.cam.size.width, f.cam.size.height;
      rec.Declare(Resource(RenderTargetResource, SceneDepthPacked(f), RGBA16F, w, h, Persistent));
      rec.Declare(Resource(DepthStencilResource, TextureName(f, "prepassDepth"), DepthStencilFormat, w, h, Memoryless));
      if NeedOffscreenRT(f) {
        rec.Declare(Resource(DepthStencilResource, DepthStencil(Id(f)), DepthStencilFormat, w, h, Persistent));
      }
    }

    /**
     * `setup`: adds the prepass, then hands the depth-stencil name on; the colour name and the
     * previous pass are not consulted and the new pass is returned.
     */
    method Setup(rec: Recorder, f: Frame, ctx: RenderingContext, prev: Option<nat>) returns (r: Option<nat>)
      modifies rec, ctx
      ensures r == Some(|old(rec.log.passes)|)
      ensures rec.log == old(rec.log).(passes := old(rec.log.passes) + [Prepass(f)])
      ensures ctx.depthStencilName == Some(HandedDepth(f))
      ensures ctx.colorName == old(ctx.colorName) && ctx.lastPass == old(ctx.lastPass)
    {
      var h := rec.AddPass(PrepassBase(f));
      ghost var added := rec.log;
      assert added.passes[h] == PrepassBase(f);
      assert PrepassBase(f).queues + [PrepassQueue(f)] == [PrepassQueue(f)];
      rec.AddQueue(h, PrepassQueue(f));
      assert rec.log.passes == added.passes[h := Prepass(f)];
      assert added.passes[h := Prepass(f)] == old(rec.log.passes) + [Prepass(f)];
      ctx.depthStencilName := Some(if NeedOffscreenRT(f) then DepthStencil(Id(f)) else WindowDepthStencil(Id(f)));
      return Some(h);
    }
  }
}
