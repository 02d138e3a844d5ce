/**
 * xq-taapass.ts: temporal anti-aliasing. A small state machine chooses, frame by frame,
 * between the warm-up frame, TAA (the camera moved) and SSAA (the camera stood still, so the
 * history keeps accumulating); the jitter's ping-pong flag chooses which of the two history
 * targets is read and which is written.
 */
module TaaPass {
  import opened Wrappers
  import opened Host
  import opened RenderGraph
  import opened Utils
  import opened Cameras
  import opened Contexts

  const RenderOrder: int := 500

  /** `TAAMode`: First = 0, TAA = 1, SSAA = 2. */
  datatype TaaMode = First | Taa | Ssaa

  function ModeValue(m: TaaMode): real {
    match m
    case First => 0.0
    case Taa => 1.0
    case Ssaa => 2.0
  }

  /** The identity matrix a new `Mat4` holds. */
  const IdentityMatrix := Matrix(0)

  /** The builder's persistent fields. */
  datatype TaaState = TaaState(initialized: bool, firstFrame: bool, staticFrameCount: int, prevViewProj: Matrix)

  const InitialTaa := TaaState(false, true, 0, IdentityMatrix)

  /** The frame count never goes negative. */
  predicate TaaValid(s: TaaState) {
    s.staticFrameCount >= 0
  }

  /** `windowResize`: back to the warm-up frame with no history, and ready. */
  function Resized(s: TaaState): (r: TaaState)
    ensures r.initialized && r.firstFrame && r.staticFrameCount == 0 && r.prevViewProj == s.prevViewProj
  {
    s.(initialized := true, firstFrame := true, staticFrameCount := 0)
  }

  datatype TaaStepResult = TaaStepResult(mode: TaaMode, next: TaaState)

  /**
   * One initialised `setup` with the camera's view-projection `viewProj`: the first frame after
   * a resize is the warm-up; afterwards an unchanged view-projection accumulates one more static
   * frame (SSAA) and a changed one restarts the count (TAA). The view-projection is remembered.
   */
  function TaaStep(s: TaaState, viewProj: Matrix): (r: TaaStepResult)
    requires TaaValid(s)
    ensures TaaValid(r.next) && r.next.staticFrameCount >= 1
    ensures r.next.initialized == s.initialized && !r.next.firstFrame && r.next.prevViewProj == viewProj
    ensures r.mode == First <==> s.firstFrame
    ensures r.mode == Ssaa <==> !s.firstFrame && MatrixEquals(viewProj, s.prevViewProj)
    ensures r.mode == Ssaa ==> r.next.staticFrameCount == s.staticFrameCount + 1
    ensures r.mode != Ssaa ==> r.next.staticFrameCount == 1
  {
    if s.firstFrame then
      TaaStepResult(First, s.(firstFrame := false, staticFrameCount := 1, prevViewProj := viewProj))
    else if MatrixEquals(viewProj, s.prevViewProj) then
      TaaStepResult(Ssaa, s.(staticFrameCount := s.staticFrameCount + 1, prevViewProj := viewProj))
    else
      TaaStepResult(Taa, s.(staticFrameCount := 1, prevViewProj := viewProj))
  }

  /** `n` initialised setups, all with the view-projection `viewProj`. */
  function TaaRun(s: TaaState, viewProj: Matrix, n: nat): (r: TaaState)
    requires TaaValid(s)
    ensures TaaValid(r)
  {
    if n == 0 then s else TaaStep(TaaRun(s, viewProj, n - 1), viewProj).next
  }

  /**
   * After a resize and `n` frames of a camera that does not move, the history holds `n` frames:
   * the first of them was the warm-up and every later one an SSAA frame.
   */
  lemma {:induction false} StaticFramesAccumulate(s: TaaState, viewProj: Matrix, n: nat)
    requires TaaValid(s) && n >= 1
    ensures TaaRun(Resized(s), viewProj, n).staticFrameCount == n
    ensures n >= 2 ==> TaaStep(TaaRun(Resized(s), viewProj, n - 1), viewProj).mode == Ssaa
    decreases n
  {
    var start := Resized(s);
    if n >= 2 {
      StaticFramesAccumulate(s, viewProj, n - 1);
      var before := TaaRun(start, viewProj, n - 1);
      assert !before.firstFrame && before.prevViewProj == viewProj;
      assert TaaStep(before, viewProj).mode == Ssaa;
    }
  }

  /** The blend weight `1 / max(count, 1)` of the history. */
  function BlendWeight(count: int): (w: real)
    ensures 0.0 < w <= 1.0
    ensures count >= 1 ==> w * (count as real) == 1.0
  {
    1.0 / (Max(count, 1) as real)
  }

  /** The history target read: taaFrame0 when the jitter flag is positive, else taaFrame1. */
  function ReadFrame(f: Frame): string {
    TextureName(f, if f.jitter.z > 0 then "taaFrame0" else "taaFrame1")
  }

  /** The history target written: the other one. */
  function WriteFrame(f: Frame): string {
    TextureName(f, if f.jitter.z > 0 then "taaFrame1" else "taaFrame0")
  }

  /**
   * The read and the written history differ whenever the two frame names do, and a positive
   * jitter flag reads taaFrame0 and writes taaFrame1.
   */
  lemma HistoryFramesDiffer(f: Frame)
    requires TextureName(f, "taaFrame0") != TextureName(f, "taaFrame1")
    ensures ReadFrame(f) != WriteFrame(f)
    ensures f.jitter.z > 0 ==>
              ReadFrame(f) == TextureName(f, "taaFrame0") && WriteFrame(f) == TextureName(f, "taaFrame1")
  {
  }

  /** One jitter update swaps the two histories: the target written now is read next. */
  lemma HistoryPingPong(f: Frame)
    requires JitterInvariant(f.jitter)
    ensures ReadFrame(f.(jitter := JitterStep(f.jitter))) == WriteFrame(f)
    ensures WriteFrame(f.(jitter := JitterStep(f.jitter))) == ReadFrame(f)
  {
  }

  /**
   * The jitter is never updated, so it keeps its initial flag -1: every frame reads taaFrame1
   * and writes taaFrame0 again.
   */
  lemma HistoryWithoutJitterUpdate(f: Frame)
    requires f.jitter == InitialJitter
    ensures ReadFrame(f) == TextureName(f, "taaFrame1") && WriteFrame(f) == TextureName(f, "taaFrame0")
  {
  }

  /** `windowResize`: the two persistent history targets at the camera size. */
  function TaaResources(f: Frame): seq<Resource> {
    var w, h := f.cam.size.width, f.cam.size.height;
    [Resource(RenderTargetResource, TextureName(f, "taaFrame0"), f.cam.flags.radianceFormat, w, h, Persistent),
     Resource(RenderTargetResource, TextureName(f, "taaFrame1"), f.cam.flags.radianceFormat, w, h, Persistent)]
  }

  /** The resolve pass for colour `input`, in mode `mode` with `count` static frames. */
  function TaaResolvePass(f: Frame, input: string, mode: TaaMode, count: int): Pass {
    NewPass("taaResolve", "taa-resolve", f.cam.size.width, f.cam.size.height)
      .(targets := [Attachment(WriteFrame(f), LoadOp.Discard, Store, NoClearValue)],
        textures := [Binding(input, "currentInput"), Binding(ReadFrame(f), "historyInput"),
                     Binding(SceneDepthPacked(f), "depthInput")],
        uniforms := [MatrixUniform("taaMotion0"), MatrixUniform("taaMotion1"),
                     MatrixUniform("taaMotion2"), MatrixUniform("taaMotion3"),
                     Vec4Uniform("taaParams", ModeValue(mode), BlendWeight(count), 0.0, 0.0)],
        queues := [Queue(HintNone, "default", None, None, [Quad(UtilMaterial, 4)])])
  }

  /**
   * The resolve pass writes only this frame's history and samples the current colour, the
   * other history and the packed scene depth.
   */
  lemma TaaResolveShape(f: Frame, input: string, mode: TaaMode, count: int)
    ensures Written(TaaResolvePass(f, input, mode, count)) == {WriteFrame(f)}
    ensures Sampled(TaaResolvePass(f, input, mode, count)) == {input, ReadFrame(f), SceneDepthPacked(f)}
  {
    var p := TaaResolvePass(f, input, mode, count);
    assert (set k | 0 <= k < |p.targets| :: p.targets[k].name) == {WriteFrame(f)} by {
      assert p.targets[0].name == WriteFrame(f);
    }
    assert Sampled(p) == {input, ReadFrame(f), SceneDepthPacked(f)} by {
      assert p.textures[0].resource == input && p.textures[1].resource == ReadFrame(f)
             && p.textures[2].resource == SceneDepthPacked(f);
    }
  }

  /** The resolve pass writes only a history `windowResize` declared. */
  lemma TaaWritesDeclared(f: Frame, input: string, mode: TaaMode, count: int)
    ensures Written(TaaResolvePass(f, input, mode, count)) <= DeclaredNames(TaaResources(f))
  {
    TaaResolveShape(f, input, mode, count);
    assert WriteFrame(f) == TaaResources(f)[if f.jitter.z > 0 then 1 else 0].name;
  }

  class TAAPassBuilder {
    var initialized: bool
    var firstFrame: bool
    var staticFrameCount: int
    var prevViewProj: Matrix

    function State(): TaaState
      reads this
    {
      TaaState(initialized, firstFrame, staticFrameCount, prevViewProj)
    }

    constructor ()
      ensures State() == InitialTaa
    {
      initialized, firstFrame, staticFrameCount, prevViewProj := false, true, 0, IdentityMatrix;
    }

    /** `windowResize`: declares the histories and restarts the state machine. */
    method WindowResize(rec: Recorder, f: Frame)
      modifies rec, this
      ensures rec.log == old(rec.log).(resources := old(rec.log.resources) + TaaResources(f))
      ensures State() == Resized(old(State()))
    {
      var w, h := f.cam.size.width, f.cam.size.height;
      rec.Declare(Resource(RenderTargetResource, TextureName(f, "taaFrame0"), f.cam.flags.radianceFormat, w, h, Persistent));
      rec.Declare(Resource(RenderTargetResource, TextureName(f, "taaFrame1"), f.cam.flags.radianceFormat, w, h, Persistent));
      firstFrame := true;
      staticFrameCount := 0;
      initialized := true;
    }

    /**
     * `setup`: before any resize nothing happens and no pass is returned. Afterwards the state
     * machine takes one step, the resolve pass reads the context colour and the other history
     * and writes this frame's history, which becomes the context colour.
     */
    method Setup(rec: Recorder, f: Frame, ctx: RenderingContext, prev: Option<nat>) returns (r: Option<nat>)
      requires ctx.colorName.Some? && TaaValid(State())
      modifies rec, ctx, this
      ensures TaaValid(State())
      ensures !old(initialized) ==>
                r == None && rec.log == old(rec.log) && State() == old(State())
                && ctx.colorName == old(ctx.colorName)
      ensures old(initialized) ==>
                var step := TaaStep(old(State()), f.cam.camera.viewProj);
                State() == step.next && r == Some(|old(rec.log.passes)|)
                && rec.log == old(rec.log).(passes := old(rec.log.passes)
                     + [TaaResolvePass(f, old(ctx.colorName).value, step.mode, step.next.staticFrameCount)])
                && ctx.colorName == Some(WriteFrame(f))
      ensures ctx.depthStencilName == old(ctx.depthStencilName) && ctx.lastPass == old(ctx.lastPass)
    {
      if !initialized {
        return None;
      }
      var pingPong := f.jitter.z > 0;
      var readFrame := TextureName(f, if pingPong then "taaFrame0" else "taaFrame1");
      var writeFrame := TextureName(f, if pingPong then "taaFrame1" else "taaFrame0");

      var mode: TaaMode;
      if firstFrame {
        mode := First;
        firstFrame := false;
        staticFrameCount := 1;
      } else {
        if MatrixEquals(f.cam.camera.viewProj, prevViewProj) {
          mode := Ssaa;
          staticFrameCount := staticFrameCount + 1;
        } else {
          mode := Taa;
          staticFrameCount := 1;
        }
      }

      var h := rec.AddPass(TaaResolvePass(f, ctx.colorName.value, mode, staticFrameCount));
      ctx.colorName := Some(writeFrame);
      prevViewProj := f.cam.camera.viewProj;
      return Some(h);
    }
  }
}
