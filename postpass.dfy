/**
 * xq-postpass.ts: the post-process chain. Effects are put in two groups (bloom and tone
 * mapping or colour grading before TAA, FXAA after it), each group runs in ascending render
 * order, and the chain ends by writing the window colour, through FSR at native size or a
 * plain copy to the screen.
 */
module PostPass {
  import opened Wrappers
  import opened Host
  import opened RenderGraph
  import opened Names
  import opened Sorting
  import opened Cameras
  import opened Contexts
  import opened TaaPass

  const RenderOrder: int := 500

  // ---------------------------------------------------------------- effects

  /** The effects of the chain; colour grading carries its LUT. */
  datatype Effect = BloomEffect | ToneMapEffect | ColorGradingEffect(lut: Lut) | FxaaEffect

  /** An entry pushed into `preEffects` or `postEffects`: the effect and its `config.renderOrder`. */
  type Entry = Keyed<Effect>

  /** Colour grading is enabled with a material and a LUT. */
  predicate ColorGradingActive(settings: Settings) {
    settings.colorGrading.enabled && settings.colorGrading.hasMaterial
    && settings.colorGrading.colorGradingMap.Some?
  }

  function BloomEntry(s: Settings): Entry { Keyed(BloomEffect, s.bloom.renderOrder) }

  /** The colour-grading entry when colour grading is fully configured, the tone-mapping one otherwise. */
  function GradingEntry(s: Settings): Entry {
    if ColorGradingActive(s) then Keyed(ColorGradingEffect(s.colorGrading.colorGradingMap.value), s.colorGrading.renderOrder)
    else Keyed(ToneMapEffect, s.toneMapping.renderOrder)
  }

  function FxaaEntry(s: Settings): Entry { Keyed(FxaaEffect, s.fxaa.renderOrder) }

  /** The group before TAA, in push order. */
  function PreEffects(f: Frame): seq<Entry> {
    var s := f.settings;
    (if s.bloom.enabled && s.bloom.hasMaterial then [BloomEntry(s)] else [])
    + (if f.cam.flags.hdrEnabled || ColorGradingActive(s) then [GradingEntry(s)] else [])
  }

  /** The group after TAA. */
  function PostEffects(f: Frame): seq<Entry> {
    if f.settings.fxaa.enabled && f.settings.fxaa.hasMaterial then [FxaaEntry(f.settings)] else []
  }

  /**
   * Both groups after the in-place sort by render order. They have at most two entries and at
   * most one, where the stable sort is `ShortSort` (`Sorting.SortShort`).
   */
  function SortedPre(f: Frame): seq<Entry> { ShortSort(PreEffects(f)) }
  function SortedPost(f: Frame): seq<Entry> { ShortSort(PostEffects(f)) }

  /** Both groups are what the stable sort by render order makes of the pushed entries. */
  lemma SortedGroups(f: Frame)
    ensures SortedPre(f) == Sort(PreEffects(f))
    ensures SortedPost(f) == Sort(PostEffects(f))
  {
    SortShort(PreEffects(f));
    SortShort(PostEffects(f));
  }

  /** The facts both groups are described by, for groups `pre` and `post`. */
  predicate GroupsHold(f: Frame, pre: seq<Entry>, post: seq<Entry>) {
    var s := f.settings;
    (BloomEntry(s) in pre <==> s.bloom.enabled && s.bloom.hasMaterial)
    && (Keyed(ToneMapEffect, s.toneMapping.renderOrder) in pre <==> f.cam.flags.hdrEnabled && !ColorGradingActive(s))
    && (ColorGradingActive(s) ==> GradingEntry(s) in pre)
    && (forall x :: x in pre && x.item.ColorGradingEffect? ==> ColorGradingActive(s))
    && (forall x :: x in pre && x.item == ToneMapEffect ==> f.cam.flags.hdrEnabled)
    && (forall x :: x in pre ==> x.item != FxaaEffect)
    && (FxaaEntry(s) in post <==> s.fxaa.enabled && s.fxaa.hasMaterial)
    && (forall x :: x in post ==> x.item == FxaaEffect)
    && |pre| <= 2 && |post| <= 1
  }

  lemma PushedEffects(f: Frame)
    ensures GroupsHold(f, PreEffects(f), PostEffects(f))
  {
    var s := f.settings;
    var bloom := if s.bloom.enabled && s.bloom.hasMaterial then [BloomEntry(s)] else [];
    var grading := if f.cam.flags.hdrEnabled || ColorGradingActive(s) then [GradingEntry(s)] else [];
    assert PreEffects(f) == bloom + grading;
    assert forall x :: x in bloom + grading <==> x in bloom || x in grading;
  }

  /**
   * Which effects run: bloom exactly when enabled with a material; colour grading exactly when
   * fully configured; tone mapping exactly when HDR is on and colour grading is not; FXAA
   * exactly when enabled with a material, and after TAA. Sorting each group by render order
   * keeps these facts.
   */
  lemma EffectBuckets(f: Frame)
    ensures GroupsHold(f, SortedPre(f), SortedPost(f))
    ensures Sorted(SortedPre(f)) && Sorted(SortedPost(f))
  {
    PushedEffects(f);
    var pre := PreEffects(f);
    if |pre| == 2 {
      assert pre == [pre[0], pre[1]];
    }
    GroupsHoldReordered(f, PreEffects(f), PostEffects(f), SortedPre(f), SortedPost(f));
  }

  /** The group facts speak only of membership and size, so any reordering keeps them. */
  lemma GroupsHoldReordered(f: Frame, pre: seq<Entry>, post: seq<Entry>, pre': seq<Entry>, post': seq<Entry>)
    requires GroupsHold(f, pre, post)
    requires forall x :: x in pre' <==> x in pre
    requires forall x :: x in post' <==> x in post
    requires |pre'| == |pre| && |post'| == |post|
    ensures GroupsHold(f, pre', post')
  {
  }

  /**
   * When bloom and the tone-mapping or colour-grading entry both run, the one with the smaller
   * render order runs first, and bloom first when the orders are equal.
   */
  lemma PreGroupOrder(f: Frame)
    requires f.settings.bloom.enabled && f.settings.bloom.hasMaterial
    requires f.cam.flags.hdrEnabled || ColorGradingActive(f.settings)
    ensures var b, g := BloomEntry(f.settings), GradingEntry(f.settings);
            SortedPre(f) == if g.key < b.key then [g, b] else [b, g]
  {
    var b, g := BloomEntry(f.settings), GradingEntry(f.settings);
    assert PreEffects(f) == [b, g];
  }

  /** `_colorGradingPass`: a square LUT uses the 8x8 layout and pass 1, any other the nx1 layout and pass 0. */
  function LutLayout(lut: Lut): (r: (string, int))
    ensures r.0 == "cc-color-grading-8x8" <==> lut.width == lut.height
    ensures r.1 == 1 <==> lut.width == lut.height
    ensures r.0 == "cc-color-grading-8x8" || r.0 == "cc-color-grading-nx1"
    ensures r.1 == 0 || r.1 == 1
  {
    var isSquareMap := lut.width == lut.height;
    (if isSquareMap then "cc-color-grading-8x8" else "cc-color-grading-nx1", if isSquareMap then 1 else 0)
  }

  /** A full-screen pass of the chain: it writes `output` and samples `input` under `slot`. */
  function QuadPass(name: string, layout: string, w: int, h: int, input: string, slot: string,
                    output: string, uniforms: seq<Uniform>, quad: Draw): Pass
  {
    NewPass(name, layout, w, h)
      .(targets := [Attachment(output, LoadOp.Discard, Store, NoClearValue)],
        textures := [Binding(input, slot)],
        uniforms := uniforms,
        queues := [Queue(HintNone, "default", None, None, [quad])])
  }

  lemma QuadPassShape(name: string, layout: string, w: int, h: int, input: string, slot: string,
                      output: string, uniforms: seq<Uniform>, quad: Draw)
    ensures var p := QuadPass(name, layout, w, h, input, slot, output, uniforms, quad);
            Written(p) == {output} && Sampled(p) == {input}
  {
    var p := QuadPass(name, layout, w, h, input, slot, output, uniforms, quad);
    assert (set k | 0 <= k < |p.targets| :: p.targets[k].name) == {output} by {
      assert p.targets[0].name == output;
    }
    assert (set k | 0 <= k < |p.textures| :: p.textures[k].resource) == {input} by {
      assert p.textures[0].resource == input;
    }
  }

  /** The pass `execute(input, output, w, h)` of an entry adds, at the camera size. */
  function EffectPass(f: Frame, e: Effect, input: string, output: string): Pass
  {
    var s, w, h := f.settings, f.cam.size.width, f.cam.size.height;
    match e
    case BloomEffect =>
      QuadPass("bloom", "bloom", w, h, input, "inputTexture", output,
               [FloatUniform("threshold", s.bloom.threshold), FloatUniform("intensity", s.bloom.intensity)],
               Quad(BloomMaterial, 0))
    case ToneMapEffect =>
      QuadPass("toneMapping", "tonemap", w, h, input, "inputTexture", output, [],
               Quad(if s.toneMapping.hasMaterial then ToneMappingMaterial else UtilMaterial, 0))
    case ColorGradingEffect(lut) =>
      var layout := LutLayout(lut);
      QuadPass("colorGrading", layout.0, w, h, input, "sceneColorMap", output,
               [Vec2Uniform("lutTextureSize", lut.width as real, lut.height as real),
                FloatUniform("contribute", s.colorGrading.contribute)],
               Quad(ColorGradingMaterial, layout.1))
    case FxaaEffect =>
      QuadPass("fxaa", "fxaa", w, h, input, "inputTexture", output, [], Quad(FxaaMaterial, 0))
  }

  /** Every effect pass writes its output and samples its input, and nothing else. */
  lemma EffectPassShape(f: Frame, e: Effect, input: string, output: string)
    ensures Written(EffectPass(f, e, input, output)) == {output}
    ensures Sampled(EffectPass(f, e, input, output)) == {input}
  {
    var s, w, h := f.settings, f.cam.size.width, f.cam.size.height;
    match e
    case BloomEffect =>
      QuadPassShape("bloom", "bloom", w, h, input, "inputTexture", output,
                    [FloatUniform("threshold", s.bloom.threshold), FloatUniform("intensity", s.bloom.intensity)],
                    Quad(BloomMaterial, 0));
    case ToneMapEffect =>
      QuadPassShape("toneMapping", "tonemap", w, h, input, "inputTexture", output, [],
                    Quad(if s.toneMapping.hasMaterial then ToneMappingMaterial else UtilMaterial, 0));
    case ColorGradingEffect(lut) =>
      var layout := LutLayout(lut);
      QuadPassShape("colorGrading", layout.0, w, h, input, "sceneColorMap", output,
                    [Vec2Uniform("lutTextureSize", lut.width as real, lut.height as real),
                     FloatUniform("contribute", s.colorGrading.contribute)],
                    Quad(ColorGradingMaterial, layout.1));
    case FxaaEffect =>
      QuadPassShape("fxaa", "fxaa", w, h, input, "inputTexture", output, [], Quad(FxaaMaterial, 0));
  }

  /**
   * The passes of one group: the first effect reads `input`, every later one reads `output`,
   * the very target it writes.
   */
  function Chain(f: Frame, es: seq<Entry>, input: string, output: string): (ps: seq<Pass>)
    ensures |ps| == |es|
  {
    if |es| == 0 then []
    else
      Chain(f, es[..|es| - 1], input, output)
      + [EffectPass(f, es[|es| - 1].item, if |es| == 1 then input else output, output)]
  }

  /** Every pass of a group writes `output`; the first samples `input` and every later one `output`. */
  lemma {:induction false} ChainShape(f: Frame, es: seq<Entry>, input: string, output: string)
    ensures forall k :: 0 <= k < |es| ==> Written(Chain(f, es, input, output)[k]) == {output}
    ensures forall k :: 0 <= k < |es| ==>
              Sampled(Chain(f, es, input, output)[k]) == {if k == 0 then input else output}
    decreases |es|
  {
    if |es| > 0 {
      var init := Chain(f, es[..|es| - 1], input, output);
      ChainShape(f, es[..|es| - 1], input, output);
      var last := EffectPass(f, es[|es| - 1].item, if |es| == 1 then input else output, output);
      var ps := Chain(f, es, input, output);
      assert ps == init + [last];
      EffectPassShape(f, es[|es| - 1].item, if |es| == 1 then input else output, output);
      forall k | 0 <= k < |ps|
        ensures Written(ps[k]) == {output} && Sampled(ps[k]) == {if k == 0 then input else output}
      {
        if k < |init| {
          assert ps[k] == init[k];
          assert Written(init[k]) == {output};
          assert Sampled(init[k]) == {if k == 0 then input else output};
        } else {
          assert ps[k] == last;
          assert Written(last) == {output};
          assert Sampled(last) == {if k == 0 then input else output};
        }
      }
    }
  }

  /** The colour a group leaves: its input when it is empty, its target otherwise. */
  function AfterGroup(es: seq<Entry>, input: string, output: string): string {
    if |es| == 0 then input else output
  }

  function Intermediate(f: Frame): string { TextureName(f, "postIntermediate") }
  function LdrBuffer(f: Frame): string { TextureName(f, "postLdrBuffer") }

  // ---------------------------------------------------------------- final pass

  predicate FsrActive(settings: Settings) {
    settings.fsr.enabled && settings.fsr.hasMaterial
  }

  /** `_fsrPass`: upscales `input` into the window colour at native size. */
  function FsrPass(f: Frame, input: string): Pass {
    QuadPass("fsr", "fsr", f.cam.size.nativeWidth, f.cam.size.nativeHeight, input, "inputTexture",
             WindowColor(Id(f)), [FloatUniform("sharpness", f.settings.fsr.sharpness)], Quad(FsrMaterial, 0))
  }

  /** `_blitPass`: copies `input` into the window colour at native size; no quad without utilMtl. */
  function BlitPass(f: Frame, input: string): Pass {
    var p := QuadPass("copyToScreen", "screen-blit", f.cam.size.nativeWidth, f.cam.size.nativeHeight,
                      input, "inputTexture", WindowColor(Id(f)), [], Quad(UtilMaterial, 1));
    if f.env.utilMtl then p else p.(queues := [])
  }

  /** What ends the chain when the colour so far is `color`. */
  function FinalPasses(f: Frame, color: string): seq<Pass> {
    if FsrActive(f.settings) then [FsrPass(f, color)]
    else if color != WindowColor(Id(f)) then [BlitPass(f, color)]
    else []
  }

  /**
   * Unless the colour already is the window colour, exactly one final pass runs; it reads that
   * colour and writes the window colour.
   */
  lemma FinalPassShape(f: Frame, color: string)
    ensures FinalPasses(f, color) == [] <==> !FsrActive(f.settings) && color == WindowColor(Id(f))
    ensures FinalPasses(f, color) != [] ==>
              |FinalPasses(f, color)| == 1 && Written(FinalPasses(f, color)[0]) == {WindowColor(Id(f))}
              && Sampled(FinalPasses(f, color)[0]) == {color}
  {
    var n := f.cam.size;
    QuadPassShape("fsr", "fsr", n.nativeWidth, n.nativeHeight, color, "inputTexture",
                  WindowColor(Id(f)), [FloatUniform("sharpness", f.settings.fsr.sharpness)], Quad(FsrMaterial, 0));
    var p := QuadPass("copyToScreen", "screen-blit", n.nativeWidth, n.nativeHeight,
                      color, "inputTexture", WindowColor(Id(f)), [], Quad(UtilMaterial, 1));
    QuadPassShape("copyToScreen", "screen-blit", n.nativeWidth, n.nativeHeight,
                  color, "inputTexture", WindowColor(Id(f)), [], Quad(UtilMaterial, 1));
    assert Written(p.(queues := [])) == Written(p) && Sampled(p.(queues := [])) == Sampled(p);
  }

  function FinalWarnings(f: Frame, color: string): seq<Warning> {
    if !FsrActive(f.settings) && color != WindowColor(Id(f)) && !f.env.utilMtl then [CopyToScreenNoMaterial]
    else []
  }

  // ---------------------------------------------------------------- the whole chain

  /** The TAA step `setup` takes: one step when initialised, none before the first resize. */
  function TaaOutcome(s: TaaState, viewProj: Matrix): Option<TaaStepResult>
    requires TaaValid(s)
  {
    if s.initialized then Some(TaaStep(s, viewProj)) else None
  }

  /** The colour the pre group leaves. */
  function AfterPre(f: Frame, input: string): string {
    AfterGroup(SortedPre(f), input, Intermediate(f))
  }

  /** The colour after the pre group and TAA. */
  function AfterTaa(f: Frame, input: string, taa: Option<TaaStepResult>): string {
    if taa.Some? then WriteFrame(f) else AfterPre(f, input)
  }

  /** The colour before the final pass. */
  function BeforeFinal(f: Frame, input: string, taa: Option<TaaStepResult>): string {
    AfterGroup(SortedPost(f), AfterTaa(f, input, taa), LdrBuffer(f))
  }

  /** The resolve pass of a TAA step reading `color`, if TAA runs. */
  function TaaPasses(f: Frame, color: string, taa: Option<TaaStepResult>): seq<Pass> {
    if taa.Some? then [TaaResolvePass(f, color, taa.value.mode, taa.value.next.staticFrameCount)]
    else []
  }

  /** The passes of the pre group `effects` on `input`, then of TAA. */
  function PreTaaPasses(f: Frame, effects: seq<Entry>, input: string, taa: Option<TaaStepResult>): seq<Pass> {
    Chain(f, effects, input, Intermediate(f)) + TaaPasses(f, AfterGroup(effects, input, Intermediate(f)), taa)
  }

  /** The passes of the post group `effects` on `color`, then the final pass. */
  function PostFinalPasses(f: Frame, effects: seq<Entry>, color: string): seq<Pass> {
    Chain(f, effects, color, LdrBuffer(f)) + FinalPasses(f, AfterGroup(effects, color, LdrBuffer(f)))
  }

  /** Every pass `setup` adds for context colour `input`, in order. */
  function PostPasses(f: Frame, input: string, taa: Option<TaaStepResult>): seq<Pass> {
    PreTaaPasses(f, SortedPre(f), input, taa) + PostFinalPasses(f, SortedPost(f), AfterTaa(f, input, taa))
  }

  /** The warning of the assertion that the context colour is not already the window colour. */
  function InputWarnings(f: Frame, input: string): seq<Warning> {
    if input == WindowColor(Id(f)) then [PostInputIsOutput] else []
  }

  /** Every warning `setup` records. */
  function PostWarnings(f: Frame, input: string, taa: Option<TaaStepResult>): seq<Warning> {
    InputWarnings(f, input) + FinalWarnings(f, BeforeFinal(f, input, taa))
  }

  /** A group writes only its output, so no pass of it writes a `w` other than the output. */
  lemma ChainAvoids(f: Frame, es: seq<Entry>, input: string, output: string, w: string)
    requires output != w
    ensures forall k :: 0 <= k < |es| ==> w !in Written(Chain(f, es, input, output)[k])
  {
    ChainShape(f, es, input, output);
  }

  /** The TAA resolve writes only the history target of this frame. */
  lemma TaaAvoids(f: Frame, color: string, taa: Option<TaaStepResult>, w: string)
    requires taa.Some? ==> WriteFrame(f) != w
    ensures forall k :: 0 <= k < |TaaPasses(f, color, taa)| ==> w !in Written(TaaPasses(f, color, taa)[k])
  {
    if taa.Some? {
      TaaResolveShape(f, color, taa.value.mode, taa.value.next.staticFrameCount);
    }
  }

  /** The colour before the final pass is never the window colour when no earlier one was. */
  lemma FinalWritesWindow(f: Frame, color: string)
    requires color != WindowColor(Id(f))
    ensures |FinalPasses(f, color)| == 1 && WindowColor(Id(f)) in Written(FinalPasses(f, color)[0])
  {
    FinalPassShape(f, color);
  }

  /**
   * When the context colour, the two post targets and the TAA history all differ from the
   * window colour, exactly one pass writes the window colour: the last one.
   */
  lemma WindowWrittenOnce(f: Frame, input: string, taa: Option<TaaStepResult>)
    requires input != WindowColor(Id(f))
    requires Intermediate(f) != WindowColor(Id(f)) && LdrBuffer(f) != WindowColor(Id(f))
    requires taa.Some? ==> WriteFrame(f) != WindowColor(Id(f))
    ensures var ps := PostPasses(f, input, taa);
            |ps| >= 1 && WindowColor(Id(f)) in Written(ps[|ps| - 1])
            && forall k :: 0 <= k < |ps| - 1 ==> WindowColor(Id(f)) !in Written(ps[k])
  {
    GroupsWriteWindowOnce(f, SortedPre(f), SortedPost(f), input, taa, PostPasses(f, input, taa));
  }

  /** `WindowWrittenOnce` for any two groups. */
  lemma GroupsWriteWindowOnce(f: Frame, preEffects: seq<Entry>, postEffects: seq<Entry>, input: string,
                              taa: Option<TaaStepResult>, ps: seq<Pass>)
    requires input != WindowColor(Id(f))
    requires Intermediate(f) != WindowColor(Id(f)) && LdrBuffer(f) != WindowColor(Id(f))
    requires taa.Some? ==> WriteFrame(f) != WindowColor(Id(f))
    requires ps == PreTaaPasses(f, preEffects, input, taa)
                   + PostFinalPasses(f, postEffects, if taa.Some? then WriteFrame(f)
                                                     else AfterGroup(preEffects, input, Intermediate(f)))
    ensures |ps| >= 1 && WindowColor(Id(f)) in Written(ps[|ps| - 1])
    ensures forall k :: 0 <= k < |ps| - 1 ==> WindowColor(Id(f)) !in Written(ps[k])
  {
    var w := WindowColor(Id(f));
    var afterPre := AfterGroup(preEffects, input, Intermediate(f));
    var color := if taa.Some? then WriteFrame(f) else afterPre;
    var last := AfterGroup(postEffects, color, LdrBuffer(f));
    ChainAvoids(f, preEffects, input, Intermediate(f), w);
    TaaAvoids(f, afterPre, taa, w);
    ChainAvoids(f, postEffects, color, LdrBuffer(f), w);
    FinalWritesWindow(f, last);
    LastWriter(Chain(f, preEffects, input, Intermediate(f)), TaaPasses(f, afterPre, taa),
               Chain(f, postEffects, color, LdrBuffer(f)), FinalPasses(f, last), w);
  }

  /**
   * Every pass `setup` adds writes a target `windowResize` declared (the intermediate buffer, the
   * LDR buffer or a TAA history) or the window colour, which the pipeline declares as its render
   * window.
   */
  lemma PostWritesDeclared(f: Frame, input: string, taa: Option<TaaStepResult>)
    ensures WritesWithin(PostPasses(f, input, taa), DeclaredNames(PostResources(f)) + {WindowColor(Id(f))})
  {
    var names := DeclaredNames(PostResources(f)) + {WindowColor(Id(f))};
    var rs := PostResources(f);
    assert rs[0].name == Intermediate(f) && rs[1].name == LdrBuffer(f);
    assert WriteFrame(f) == rs[if f.jitter.z > 0 then 3 else 2].name;
    var afterPre := AfterGroup(SortedPre(f), input, Intermediate(f));
    var color := AfterTaa(f, input, taa);
    var last := AfterGroup(SortedPost(f), color, LdrBuffer(f));
    ChainShape(f, SortedPre(f), input, Intermediate(f));
    ChainShape(f, SortedPost(f), color, LdrBuffer(f));
    if taa.Some? {
      TaaResolveShape(f, afterPre, taa.value.mode, taa.value.next.staticFrameCount);
    }
    FinalPassShape(f, last);
    WritesWithinConcat(Chain(f, SortedPre(f), input, Intermediate(f)), TaaPasses(f, afterPre, taa), names);
    WritesWithinConcat(Chain(f, SortedPost(f), color, LdrBuffer(f)), FinalPasses(f, last), names);
    WritesWithinConcat(PreTaaPasses(f, SortedPre(f), input, taa), PostFinalPasses(f, SortedPost(f), color), names);
  }

  /** Three runs of passes none of which writes `w`, followed by one pass that does. */
  lemma LastWriter(pre: seq<Pass>, mid: seq<Pass>, post: seq<Pass>, fin: seq<Pass>, w: string)
    requires forall k :: 0 <= k < |pre| ==> w !in Written(pre[k])
    requires forall k :: 0 <= k < |mid| ==> w !in Written(mid[k])
    requires forall k :: 0 <= k < |post| ==> w !in Written(post[k])
    requires |fin| == 1 && w in Written(fin[0])
    ensures var ps := (pre + mid) + (post + fin);
            |ps| >= 1 && w in Written(ps[|ps| - 1]) && forall k :: 0 <= k < |ps| - 1 ==> w !in Written(ps[k])
  {
    var ps := (pre + mid) + (post + fin);
    assert ps[|ps| - 1] == fin[0];
    forall k | 0 <= k < |ps| - 1
      ensures w !in Written(ps[k])
    {
      if k < |pre| {
        assert ps[k] == pre[k];
      } else if k < |pre| + |mid| {
        assert ps[k] == mid[k - |pre|];
      } else {
        assert ps[k] == post[k - |pre| - |mid|];
      }
    }
  }

  /** The assertion on entry records a warning exactly when the context colour is the window colour. */
  lemma InputAssertion(f: Frame, input: string, taa: Option<TaaStepResult>)
    ensures PostInputIsOutput in PostWarnings(f, input, taa) <==> input == WindowColor(Id(f))
  {
  }

  /**
   * Two runs of passes appended one after the other: the handle after each run is the index of
   * its last pass, or the one before it when the run is empty.
   */
  lemma LastAfter(base: seq<Pass>, a: seq<Pass>, b: seq<Pass>, prev: Option<nat>, l1: Option<nat>, l2: Option<nat>)
    requires l1 == LastPass(prev, |base|, |a|)
    requires l2 == LastPass(l1, |base + a|, |b|)
    ensures base + a + b == base + (a + b)
    ensures l2 == LastPass(prev, |base|, |a + b|)
  {
  }

  /** `windowResize`: the two post targets at the camera size, then the TAA histories. */
  function PostResources(f: Frame): seq<Resource> {
    [Resource(RenderTargetResource, Intermediate(f), f.cam.flags.radianceFormat,
              f.cam.size.width, f.cam.size.height, Managed),
     Resource(RenderTargetResource, LdrBuffer(f), RGBA8, f.cam.size.width, f.cam.size.height, Managed)]
    + TaaResources(f)
  }

  class PostProcessPassBuilder {
    /** `_taa`, the TAA builder the chain runs between its two groups. */
    const taa: TAAPassBuilder

    constructor ()
      ensures fresh(taa) && taa.State() == InitialTaa
    {
      taa := new TAAPassBuilder();
    }

    /** `windowResize`: the two post targets at the camera size, then the TAA histories. */
    method WindowResize(rec: Recorder, f: Frame)
      modifies rec, taa
      ensures rec.log == old(rec.log).(resources := old(rec.log.resources) + PostResources(f))
      ensures taa.State() == Resized(old(taa.State()))
    {
      rec.Declare(Resource(RenderTargetResource, Intermediate(f), f.cam.flags.radianceFormat,
                           f.cam.size.width, f.cam.size.height, Managed));
      rec.Declare(Resource(RenderTargetResource, LdrBuffer(f), RGBA8, f.cam.size.width, f.cam.size.height, Managed));
      taa.WindowResize(rec, f);
    }

    /** Runs a group: each effect reads the colour so far and writes `output`. */
    method RunGroup(rec: Recorder, f: Frame, effects: seq<Entry>, input: string, output: string,
                    prev: Option<nat>) returns (color: string, last: Option<nat>)
      modifies rec
      ensures rec.log == old(rec.log).(passes := old(rec.log.passes) + Chain(f, effects, input, output))
      ensures color == AfterGroup(effects, input, output)
      ensures last == LastPass(prev, |old(rec.log.passes)|, |effects|)
    {
      color, last := input, prev;
      for k := 0 to |effects|
        invariant rec.log == old(rec.log).(passes := old(rec.log.passes) + Chain(f, effects[..k], input, output))
        invariant color == AfterGroup(effects[..k], input, output)
        invariant last == LastPass(prev, |old(rec.log.passes)|, k)
      {
        assert effects[..k + 1][..k] == effects[..k];
        assert Chain(f, effects[..k + 1], input, output)
            == Chain(f, effects[..k], input, output) + [EffectPass(f, effects[k].item, color, output)];
        var h := rec.AddPass(EffectPass(f, effects[k].item, color, output));
        last := Some(h);
        color := output;
      }
      assert effects[..|effects|] == effects;
    }

    /** FSR or the copy to the screen, unless the colour already is the window colour. */
    method Finish(rec: Recorder, f: Frame, color: string, prev: Option<nat>) returns (last: Option<nat>)
      modifies rec
      ensures rec.log == old(rec.log).(passes := old(rec.log.passes) + FinalPasses(f, color),
                                       warnings := old(rec.log.warnings) + FinalWarnings(f, color))
      ensures last == LastPass(prev, |old(rec.log.passes)|, |FinalPasses(f, color)|)
    {
      var currentColor := color;
      last := prev;
      var outputColorName := WindowColor(Id(f));
      if FsrActive(f.settings) {
        var h := rec.AddPass(FsrPass(f, currentColor));
        last := Some(h);
        currentColor := outputColorName;
      }
      if currentColor != outputColorName {
        var h := rec.AddPass(BlitPass(f, currentColor));
        last := Some(h);
        if !f.env.utilMtl {
          rec.Warn(CopyToScreenNoMaterial);
        }
      }
    }

    /** TAA on the colour so far, handed over and read back through the context. */
    method RunTaa(rec: Recorder, f: Frame, ctx: RenderingContext, color: string, prev: Option<nat>)
      returns (next: string, last: Option<nat>)
      requires TaaValid(taa.State())
      modifies rec, ctx, taa
      ensures TaaValid(taa.State())
      ensures var outcome := TaaOutcome(old(taa.State()), f.cam.camera.viewProj);
              rec.log == old(rec.log).(passes := old(rec.log.passes) + TaaPasses(f, color, outcome))
              && next == (if outcome.Some? then WriteFrame(f) else color)
              && last == LastPass(prev, |old(rec.log.passes)|, |TaaPasses(f, color, outcome)|)
              && taa.State() == (if outcome.Some? then outcome.value.next else old(taa.State()))
      ensures ctx.colorName == Some(next)
      ensures ctx.depthStencilName == old(ctx.depthStencilName) && ctx.lastPass == old(ctx.lastPass)
    {
      ctx.colorName := Some(color);
      last := prev;
      var taaPass := taa.Setup(rec, f, ctx, prev);
      if taaPass.Some? {
        last := taaPass;
      }
      next := ctx.colorName.value;
    }

    /** The pre group `effects` on the context colour `input`, then TAA. */
    method PreAndTaa(rec: Recorder, f: Frame, ctx: RenderingContext, effects: seq<Entry>, input: string,
                     prev: Option<nat>) returns (color: string, last: Option<nat>)
      requires TaaValid(taa.State())
      modifies rec, ctx, taa
      ensures TaaValid(taa.State())
      ensures var outcome := TaaOutcome(old(taa.State()), f.cam.camera.viewProj);
              var ps := PreTaaPasses(f, effects, input, outcome);
              rec.log == old(rec.log).(passes := old(rec.log.passes) + ps)
              && color == (if outcome.Some? then WriteFrame(f) else AfterGroup(effects, input, Intermediate(f)))
              && last == LastPass(prev, |old(rec.log.passes)|, |ps|)
              && taa.State() == (if outcome.Some? then outcome.value.next else old(taa.State()))
      ensures ctx.colorName == Some(color)
      ensures ctx.depthStencilName == old(ctx.depthStencilName) && ctx.lastPass == old(ctx.lastPass)
    {
      ghost var base := rec.log.passes;
      ghost var outcome := TaaOutcome(taa.State(), f.cam.camera.viewProj);
      ghost var pre := Chain(f, effects, input, Intermediate(f));
      color, last := RunGroup(rec, f, effects, input, Intermediate(f), prev);
      ghost var l1 := last;
      ghost var mid := TaaPasses(f, color, outcome);
      color, last := RunTaa(rec, f, ctx, color, last);
      LastAfter(base, pre, mid, prev, l1, last);
    }

    /** The post group `effects` on `input`, then the final pass. */
    method PostAndFinal(rec: Recorder, f: Frame, effects: seq<Entry>, input: string, prev: Option<nat>)
      returns (last: Option<nat>)
      modifies rec
      ensures var ps := PostFinalPasses(f, effects, input);
              rec.log == old(rec.log).(passes := old(rec.log.passes) + ps,
                                       warnings := old(rec.log.warnings)
                                                   + FinalWarnings(f, AfterGroup(effects, input, LdrBuffer(f))))
              && last == LastPass(prev, |old(rec.log.passes)|, |ps|)
    {
      ghost var base := rec.log.passes;
      ghost var post := Chain(f, effects, input, LdrBuffer(f));
      var color;
      color, last := RunGroup(rec, f, effects, input, LdrBuffer(f), prev);
      ghost var l1 := last;
      ghost var fin := FinalPasses(f, color);
      last := Finish(rec, f, color, last);
      LastAfter(base, post, fin, prev, l1, last);
    }

    /** The warning `setup` gives when its input colour is the window colour. */
    method CheckInput(rec: Recorder, f: Frame, input: string)
      modifies rec
      ensures rec.log == old(rec.log).(warnings := old(rec.log.warnings) + InputWarnings(f, input))
    {
      if input == WindowColor(Id(f)) {
        rec.Warn(PostInputIsOutput);
      }
    }

    /**
     * The two groups, TAA and the final pass on the context colour `input`; the context colour
     * becomes the window colour.
     */
    method Run(rec: Recorder, f: Frame, ctx: RenderingContext, input: string, prev: Option<nat>)
      returns (last: Option<nat>)
      requires TaaValid(taa.State())
      modifies rec, ctx, taa
      ensures TaaValid(taa.State())
      ensures var outcome := TaaOutcome(old(taa.State()), f.cam.camera.viewProj);
              var ps := PostPasses(f, input, outcome);
              rec.log == old(rec.log).(passes := old(rec.log.passes) + ps,
                                       warnings := old(rec.log.warnings)
                                                   + FinalWarnings(f, BeforeFinal(f, input, outcome)))
              && last == LastPass(prev, |old(rec.log.passes)|, |ps|)
              && taa.State() == (if outcome.Some? then outcome.value.next else old(taa.State()))
      ensures ctx.colorName == Some(WindowColor(Id(f)))
      ensures ctx.depthStencilName == old(ctx.depthStencilName) && ctx.lastPass == old(ctx.lastPass)
    {
      ghost var base := rec.log.passes;
      ghost var outcome := TaaOutcome(taa.State(), f.cam.camera.viewProj);
      var preEffects, postEffects := SortedPre(f), SortedPost(f);
      ghost var first := PreTaaPasses(f, preEffects, input, outcome);
      var currentColor, l1 := PreAndTaa(rec, f, ctx, preEffects, input, prev);
      ghost var second := PostFinalPasses(f, postEffects, currentColor);
      last := PostAndFinal(rec, f, postEffects, currentColor, l1);
      LastAfter(base, first, second, prev, l1, last);
      ctx.colorName := Some(WindowColor(Id(f)));
    }

    /**
     * `setup`: the pre group, TAA on the colour so far, the post group and the final pass;
     * afterwards the context colour is the window colour and the last pass added is returned.
     */
    method Setup(rec: Recorder, f: Frame, ctx: RenderingContext, prev: Option<nat>) returns (r: Option<nat>)
      requires ctx.colorName.Some? && TaaValid(taa.State())
      modifies rec, ctx, taa
      ensures TaaValid(taa.State())
      ensures var outcome := TaaOutcome(old(taa.State()), f.cam.camera.viewProj);
              rec.log == old(rec.log).(passes := old(rec.log.passes) + PostPasses(f, old(ctx.colorName).value, outcome),
                                       warnings := old(rec.log.warnings) + InputWarnings(f, old(ctx.colorName).value)
                                                   + FinalWarnings(f, BeforeFinal(f, old(ctx.colorName).value, outcome)))
      ensures var outcome := TaaOutcome(old(taa.State()), f.cam.camera.viewProj);
              var ps := PostPasses(f, old(ctx.colorName).value, outcome);
              r == LastPass(prev, |old(rec.log.passes)|, |ps|)
      ensures var outcome := TaaOutcome(old(taa.State()), f.cam.camera.viewProj);
              taa.State() == (if outcome.Some? then outcome.value.next else old(taa.State()))
      ensures ctx.colorName == Some(WindowColor(Id(f)))
      ensures ctx.depthStencilName == old(ctx.depthStencilName) && ctx.lastPass == old(ctx.lastPass)
    {
      var inputColorName := ctx.colorName.value;
      CheckInput(rec, f, inputColorName);
      r := Run(rec, f, ctx, inputColorName, prev);
    }
  }
}
