/**
 * xq-uipass.ts: the UI builder adds no pass of its own. It appends the 2D queue (and, for the
 * profile camera, the profiler) to the pass before it.
 */
module UiPass {
  import opened Wrappers
  import opened RenderGraph
  import opened Cameras

  const RenderOrder: int := 1000

  /** The BLEND queue drawing 2D content, followed by the profiler for the profile camera. */
  function UiQueue(f: Frame): Queue {
    Queue(HintBlend, "default", None, None,
          [Draw2D(f.cam.camera.id)]
          + (if IsProfilerLayerCamera(f.cam, f.profileCamera) then [Profiler(f.cam.camera.id)] else []))
  }

  /** The previous pass with the UI queue appended and, for the profile camera, statistics on. */
  function WithUi(p: Pass, f: Frame): Pass {
    p.(queues := p.queues + [UiQueue(f)],
       showStatistics := p.showStatistics || IsProfilerLayerCamera(f.cam, f.profileCamera))
  }

  /**
   * Exactly one queue is appended, a BLEND queue starting with the 2D draw; the profiler draw
   * and the statistics flag are added exactly for the profile camera; everything else of the
   * pass is kept.
   */
  lemma UiAppendsOneQueue(p: Pass, f: Frame)
    ensures var q := WithUi(p, f);
            q.queues[..|p.queues|] == p.queues && |q.queues| == |p.queues| + 1
            && q.queues[|p.queues|].hint == HintBlend
            && q.queues[|p.queues|].draws[0] == Draw2D(f.cam.camera.id)
            && q.(queues := p.queues, showStatistics := p.showStatistics) == p
    ensures Profiler(f.cam.camera.id) in WithUi(p, f).queues[|p.queues|].draws
            <==> f.profileCamera == Some(f.cam.camera)
    ensures !p.showStatistics ==>
              (WithUi(p, f).showStatistics <==> f.profileCamera == Some(f.cam.camera))
  {
    var q := WithUi(p, f);
    assert q.queues[..|p.queues|] == p.queues;
  }

  class UIPassBuilder {
    constructor ()
    {
    }

    /**
     * `setup`: without a previous pass only a warning is recorded; otherwise the UI queue goes
     * into the previous pass, which no other pass sees changed. The previous pass is returned.
     */
    method Setup(rec: Recorder, f: Frame, prev: Option<nat>) returns (r: Option<nat>)
      requires rec.IsHandle(prev)
      modifies rec
      ensures r == prev
      ensures prev.None? ==> rec.log == old(rec.log).(warnings := old(rec.log.warnings) + [NoPreviousPass])
      ensures prev.Some? ==>
                rec.log == old(rec.log).(passes := old(rec.log.passes)[prev.value := WithUi(old(rec.log.passes)[prev.value], f)])
    {
      if prev.None? {
        rec.Warn(NoPreviousPass);
        return None;
      }
      var h := prev.value;
      rec.AddQueue(h, UiQueue(f));
      if IsProfilerLayerCamera(f.cam, f.profileCamera) {
        rec.ShowStatistics(h);
      }
      return prev;
    }
  }
}
