/** The Animator: the frame scheduler on the UI thread.  It asks the vsync
    waiter for a callback when a frame is wanted, coalesces requests through a
    one-permit semaphore, and on each vsync either redraws the last layer tree
    or begins a new frame, holding a pipeline continuation until Render hands
    it a tree.  A delayed idle notification is tagged with a generation id so
    that a later frame makes it stale.

    Posted tasks and the vsync callback are explicit steps here: RequestFrame
    posts an AwaitVSync task (RunAwaitVSync runs it), AwaitVSync registers
    with the waiter (OnVsync is the waiter's callback), and BeginFrame posts
    idle tasks (RunIdleTask runs one).  The pipeline's Produce is a parameter:
    whether it handed out a continuation. */
module Animators {
  import opened LayerTrees
  import opened Wrappers

  /** FrameTimingsRecorder, reduced to the numbers the animator sets or reads. */
  datatype Recorder = Recorder(frameNumber: nat, vsyncStart: real, vsyncTarget: real,
                               buildStart: Option<real>, buildEnd: Option<real>)

  /** What the animator tells its delegate (the engine). */
  datatype DelegateCall =
    | OnBeginFrame(targetTime: real)
    | OnNotifyIdle
    | OnDraw(timings: Recorder)
    | OnDrawLastLayerTree(timings: Recorder)

  /** The layer tree pipeline's depth: 2 with Metal; otherwise 1 when the
      platform and raster task runners are the same thread, else 2. */
  function PipelineDepth(metal: bool, sharedPlatformRaster: bool): (depth: nat)
    ensures depth == 1 || depth == 2
    ensures depth == 1 <==> !metal && sharedPlatformRaster
  {
    if metal then 2 else if sharedPlatformRaster then 1 else 2
  }

  /** Animator::FrameParity for the recorder the animator holds. */
  function FrameParity(recorder: Option<Recorder>): (parity: string)
    ensures parity == "even" || parity == "odd"
    ensures recorder.None? ==> parity == "even"
    ensures recorder.Some? ==> (parity == "even" <==> recorder.value.frameNumber % 2 == 1)
  {
    if recorder.None? then "even"
    else if recorder.value.frameNumber % 2 != 0 then "even" else "odd"
  }

  /** Consecutive frames always get different parities. */
  lemma ParityAlternates(r: Recorder, s: Recorder)
    requires s.frameNumber == r.frameNumber + 1
    ensures FrameParity(Some(r)) != FrameParity(Some(s))
  {
  }

  /** Every field of the animator, so that a step can state its whole new state. */
  datatype AnimatorState = AnimatorState(
    paused: bool, regenerateLayerTree: bool, frameScheduled: bool, dimensionChangePending: bool,
    notifyIdleTaskId: nat, semaphore: nat, hasContinuation: bool, traceFlowIds: seq<nat>,
    recorder: Option<Recorder>, lastLayerTreeSize: ISize,
    postedAwaitVSync: nat, vsyncPending: nat, idleTasks: seq<nat>,
    delegateCalls: seq<DelegateCall>, endedFlows: seq<nat>, committed: seq<ISize>)

  class Animator {
    const pipelineDepth: nat
    var paused: bool
    var regenerateLayerTree: bool
    var frameScheduled: bool
    var dimensionChangePending: bool
    /** The generation of the latest BeginFrame; idle tasks capture it. */
    var notifyIdleTaskId: nat
    /** pending_frame_semaphore_: the permits left (it starts with one). */
    var semaphore: nat
    /** Whether a producer continuation is held. */
    var hasContinuation: bool
    /** The trace-flow ids waiting for their flow to be ended, oldest first. */
    var traceFlowIds: seq<nat>
    var recorder: Option<Recorder>
    var lastLayerTreeSize: ISize
    /** AwaitVSync tasks posted to the UI task runner and not yet run. */
    var postedAwaitVSync: nat
    /** Vsync callbacks registered with the waiter and not yet fired. */
    var vsyncPending: nat
    /** The ids captured by the delayed idle tasks still to run. */
    var idleTasks: seq<nat>
    /** Everything the delegate was told, in order. */
    var delegateCalls: seq<DelegateCall>
    /** The trace-flow ids whose flow was ended, in order. */
    var endedFlows: seq<nat>
    /** The frame size of each tree committed to the pipeline, in order. */
    var committed: seq<ISize>

    function State(): AnimatorState
      reads this
    {
      AnimatorState(paused, regenerateLayerTree, frameScheduled, dimensionChangePending,
            notifyIdleTaskId, semaphore, hasContinuation, traceFlowIds,
            recorder, lastLayerTreeSize, postedAwaitVSync, vsyncPending, idleTasks,
            delegateCalls, endedFlows, committed)
    }

    /** The permit is either free or tied to exactly one frame request on its
        way to the vsync callback, and a request on its way is always marked
        scheduled; no idle task carries a future generation. */
    predicate Valid()
      reads this
    {
      semaphore + postedAwaitVSync + vsyncPending == 1 &&
      (postedAwaitVSync + vsyncPending > 0 ==> frameScheduled) &&
      forall i | 0 <= i < |idleTasks| :: idleTasks[i] <= notifyIdleTaskId
    }

    /** Inside the vsync callback: the request's permit has not been given back yet. */
    predicate InVsyncCallback()
      reads this
    {
      semaphore == 0 && postedAwaitVSync == 0 && vsyncPending == 0 &&
      forall i | 0 <= i < |idleTasks| :: idleTasks[i] <= notifyIdleTaskId
    }

    constructor (metal: bool, sharedPlatformRaster: bool)
      ensures Valid() && pipelineDepth == PipelineDepth(metal, sharedPlatformRaster)
      ensures State() == AnimatorState(false, false, false, false, 0, 1, false, [], None, EmptySize,
                               0, 0, [], [], [], [])
    {
      pipelineDepth := PipelineDepth(metal, sharedPlatformRaster);
      paused := false;
      regenerateLayerTree := false;
      frameScheduled := false;
      dimensionChangePending := false;
      notifyIdleTaskId := 0;
      semaphore := 1;
      hasContinuation := false;
      traceFlowIds := [];
      recorder := None;
      lastLayerTreeSize := EmptySize;
      postedAwaitVSync := 0;
      vsyncPending := 0;
      idleTasks := [];
      delegateCalls := [];
      endedFlows := [];
      committed := [];
    }

    /** Animator::Stop. */
    method Stop()
      requires Valid()
      modifies this
      ensures Valid() && State() == old(State()).(paused := true)
    {
      paused := true;
    }

    /** Animator::Start: nothing unless paused; otherwise unpause and request
        a frame (RequestFrame's default asks for a new layer tree). */
    method Start()
      requires Valid()
      modifies this
      ensures Valid()
      ensures !old(paused) ==> State() == old(State())
      ensures old(paused) ==> State() == RequestedFrame(old(State()).(paused := false), true)
    {
      if !paused {
        return;
      }
      paused := false;
      RequestFrame(true);
    }

    /** Animator::SetDimensionChangePending. */
    method SetDimensionChangePending()
      requires Valid()
      modifies this
      ensures Valid() && State() == old(State()).(dimensionChangePending := true)
    {
      dimensionChangePending := true;
    }

    /** Animator::EnqueueTraceFlowId, run on the UI thread: queue the id. */
    method EnqueueTraceFlowId(id: nat)
      requires Valid()
      modifies this
      ensures Valid() && State() == old(State()).(traceFlowIds := old(traceFlowIds) + [id])
    {
      traceFlowIds := traceFlowIds + [id];
    }

    /** The secondary vsync callback ScheduleMaybeClearTraceFlowIds registers:
        with no frame scheduled, end every queued flow. */
    method MaybeClearTraceFlowIds()
      requires Valid()
      modifies this
      ensures Valid()
      ensures old(frameScheduled) || old(traceFlowIds) == [] ==> State() == old(State())
      ensures !old(frameScheduled) && old(traceFlowIds) != [] ==>
                State() == old(State()).(traceFlowIds := [], endedFlows := old(endedFlows) + old(traceFlowIds))
    {
      if !frameScheduled && traceFlowIds != [] {
        DrainTraceFlowIds();
      }
    }

    /** Ends the queued flows front to back until the queue is empty. */
    method DrainTraceFlowIds()
      modifies this
      ensures State() == old(State()).(traceFlowIds := [], endedFlows := old(endedFlows) + old(traceFlowIds))
    {
      while traceFlowIds != []
        invariant endedFlows + traceFlowIds == old(endedFlows) + old(traceFlowIds)
        invariant State() == old(State()).(traceFlowIds := traceFlowIds, endedFlows := endedFlows)
        decreases |traceFlowIds|
      {
        var front := traceFlowIds[0];
        assert endedFlows + traceFlowIds == (endedFlows + [front]) + traceFlowIds[1..];
        endedFlows := endedFlows + [front];
        traceFlowIds := traceFlowIds[1..];
      }
      assert endedFlows == endedFlows + traceFlowIds;
    }

    /** Animator::RequestFrame: a request for a new tree is remembered even
        when it goes no further; while paused with no dimension change pending
        nothing is scheduled; without the permit the request coalesces with
        the one already on its way; otherwise one AwaitVSync is posted. */
    method RequestFrame(regenerate: bool)
      requires Valid()
      modifies this
      ensures Valid() && State() == RequestedFrame(old(State()), regenerate)
    {
      if regenerate {
        regenerateLayerTree := true;
      }
      if paused && !dimensionChangePending {
        return;
      }
      if semaphore == 0 {
        return;
      }
      semaphore := semaphore - 1;
      postedAwaitVSync := postedAwaitVSync + 1;
      frameScheduled := true;
    }

    /** The posted AwaitVSync task: registers the vsync callback and tells the
        delegate it may use the time until then. */
    method RunAwaitVSync()
      requires Valid() && postedAwaitVSync > 0
      modifies this
      ensures Valid()
      ensures State() == old(State()).(postedAwaitVSync := old(postedAwaitVSync) - 1,
                                       vsyncPending := old(vsyncPending) + 1,
                                       delegateCalls := old(delegateCalls) + [OnNotifyIdle])
    {
      postedAwaitVSync := postedAwaitVSync - 1;
      vsyncPending := vsyncPending + 1;
      delegateCalls := delegateCalls + [OnNotifyIdle];
    }

    /** Animator::CanReuseLastLayerTree. */
    predicate CanReuseLastLayerTree()
      reads this
    {
      !regenerateLayerTree
    }

    /** The waiter's vsync callback: redraw the last tree when nothing asked
        for a new one, begin a new frame otherwise.  `produced` says whether
        the pipeline's Produce would hand out a continuation and `request`
        is the frame request the delegate makes while building this one:
        its regenerate flag, or None when it makes none. */
    method OnVsync(timings: Recorder, now: real, produced: bool, request: Option<bool>)
      requires Valid() && vsyncPending > 0
      modifies this
      ensures Valid()
      ensures var s := old(State()).(vsyncPending := old(vsyncPending) - 1);
              if old(regenerateLayerTree) then State() == BeganFrame(s, timings, now, produced, request)
              else State() == DrewLast(s, timings, now)
    {
      vsyncPending := vsyncPending - 1;
      if CanReuseLastLayerTree() {
        DrawLastLayerTree(timings, now);
      } else {
        BeginFrame(timings, now, produced, request);
      }
    }

    /** Animator::DrawLastLayerTree: give the permit back and hand the
        delegate timings whose build starts and ends at the same instant. */
    method DrawLastLayerTree(timings: Recorder, now: real)
      requires InVsyncCallback()
      modifies this
      ensures Valid() && State() == DrewLast(old(State()), timings, now)
    {
      semaphore := semaphore + 1;
      var built := timings.(buildStart := Some(now), buildEnd := Some(now));
      delegateCalls := delegateCalls + [OnDrawLastLayerTree(built)];
    }

    /** Animator::BeginFrame: reset for the new frame, then reuse the held
        continuation or ask the pipeline for one; without one, try again at
        the next vsync and tell the delegate nothing. */
    method BeginFrame(timings: Recorder, now: real, produced: bool, request: Option<bool>)
      requires InVsyncCallback()
      modifies this
      ensures Valid() && State() == BeganFrame(old(State()), timings, now, produced, request)
    {
      ResetForFrame(timings, now);
      if !hasContinuation {
        hasContinuation := produced;
        if !hasContinuation {
          RequestFrame(true);
          return;
        }
      }
      BuildFrame(timings.vsyncTarget, request);
    }

    /** The top of BeginFrame: take the timings, end every queued trace flow,
        clear the scheduled and regenerate flags, start a new idle generation
        and give the permit back. */
    method ResetForFrame(timings: Recorder, now: real)
      requires InVsyncCallback()
      modifies this
      ensures Valid() && State() == FrameReset(old(State()), timings, now)
    {
      DrainTraceFlowIds();
      recorder := Some(timings.(buildStart := Some(now)));
      frameScheduled := false;
      notifyIdleTaskId := notifyIdleTaskId + 1;
      regenerateLayerTree := false;
      semaphore := semaphore + 1;
    }

    /** The rest of BeginFrame once a continuation is held: the delegate
        builds the frame (and may request the next one, with or without a
        new tree); if no frame is then
        scheduled, an idle task of the current generation is posted. */
    method BuildFrame(targetTime: real, request: Option<bool>)
      requires Valid()
      modifies this
      ensures Valid() && State() == Built(old(State()), targetTime, request)
    {
      delegateCalls := delegateCalls + [OnBeginFrame(targetTime)];
      if request.Some? {
        RequestFrame(request.value);
      }
      if !frameScheduled {
        idleTasks := idleTasks + [notifyIdleTaskId];
      }
    }

    /** One delayed idle task runs: it notifies the delegate only if no frame
        began since it was posted and none is scheduled. */
    method RunIdleTask(i: nat) returns (notified: bool)
      requires Valid() && i < |idleTasks|
      modifies this
      ensures Valid()
      ensures notified <==> old(idleTasks[i]) == old(notifyIdleTaskId) && !old(frameScheduled)
      ensures var s := old(State()).(idleTasks := old(idleTasks[..i] + idleTasks[i + 1..]));
              State() == if notified then s.(delegateCalls := old(delegateCalls) + [OnNotifyIdle]) else s
    {
      var id := idleTasks[i];
      idleTasks := idleTasks[..i] + idleTasks[i + 1..];
      notified := id == notifyIdleTaskId && !frameScheduled;
      if notified {
        delegateCalls := delegateCalls + [OnNotifyIdle];
      }
    }

    /** Animator::Render: a dimension change is over once a tree of a new size
        arrives; the size is remembered; timings are made up when the
        framework renders without a frame having begun; the held continuation
        is completed with the tree; the delegate gets the timings. */
    method Render(tree: LayerTree, now: real, freshFrameNumber: nat)
      requires Valid()
      modifies this
      ensures Valid() && State() == Rendered(old(State()), tree.frameSize, now, freshFrameNumber)
    {
      var size := tree.frameSize;
      NoteFrameSize(size);
      EnsureRecorder(freshFrameNumber, now);
      var timings := recorder.value.(buildEnd := Some(now));
      CompleteContinuation(size);
      delegateCalls := delegateCalls + [OnDraw(timings)];
      recorder := None;
    }

    /** The frame-size bookkeeping of Render. */
    method NoteFrameSize(size: ISize)
      requires Valid()
      modifies this
      ensures Valid() && State() == SizeNoted(old(State()), size)
    {
      if dimensionChangePending && size != lastLayerTreeSize {
        dimensionChangePending := false;
      }
      lastLayerTreeSize := size;
    }

    /** Render's placeholder timings, made only when none are held: a fresh
        recorder whose vsync and build start are all `now`. */
    method EnsureRecorder(freshFrameNumber: nat, now: real)
      requires Valid()
      modifies this
      ensures Valid() && State() == WithRecorder(old(State()), freshFrameNumber, now)
      ensures recorder.Some?
    {
      if recorder.None? {
        recorder := Some(Recorder(freshFrameNumber, now, now, Some(now), None));
      }
    }

    /** ProducerContinuation::Complete (the pipeline is not part of this
        model): a held continuation commits the tree and is used up; without
        one nothing is committed. */
    method CompleteContinuation(size: ISize)
      modifies this
      ensures State() == Completed(old(State()), size)
    {
      if hasContinuation {
        committed := committed + [size];
        hasContinuation := false;
      }
    }
  }

  /** The state after RequestFrame(regenerate). */
  function RequestedFrame(s: AnimatorState, regenerate: bool): (r: AnimatorState)
    ensures r.regenerateLayerTree == (s.regenerateLayerTree || regenerate)
    ensures r.semaphore + r.postedAwaitVSync == s.semaphore + s.postedAwaitVSync
  {
    var posts := !(s.paused && !s.dimensionChangePending) && s.semaphore > 0;
    s.(regenerateLayerTree := s.regenerateLayerTree || regenerate,
       semaphore := if posts then s.semaphore - 1 else s.semaphore,
       postedAwaitVSync := if posts then s.postedAwaitVSync + 1 else s.postedAwaitVSync,
       frameScheduled := posts || s.frameScheduled)
  }

  /** The state after DrawLastLayerTree. */
  function DrewLast(s: AnimatorState, timings: Recorder, now: real): AnimatorState {
    s.(semaphore := s.semaphore + 1,
       delegateCalls := s.delegateCalls + [OnDrawLastLayerTree(timings.(buildStart := Some(now), buildEnd := Some(now)))])
  }

  /** The state after the top of BeginFrame. */
  function FrameReset(s: AnimatorState, timings: Recorder, now: real): AnimatorState {
    s.(recorder := Some(timings.(buildStart := Some(now))),
       traceFlowIds := [], endedFlows := s.endedFlows + s.traceFlowIds,
       frameScheduled := false, notifyIdleTaskId := s.notifyIdleTaskId + 1,
       regenerateLayerTree := false, semaphore := s.semaphore + 1)
  }

  /** The state after the delegate built a frame. */
  function Built(s: AnimatorState, targetTime: real, request: Option<bool>): AnimatorState {
    var u := s.(delegateCalls := s.delegateCalls + [OnBeginFrame(targetTime)]);
    var v := if request.Some? then RequestedFrame(u, request.value) else u;
    if v.frameScheduled then v else v.(idleTasks := v.idleTasks + [v.notifyIdleTaskId])
  }

  /** The state after BeginFrame. */
  function BeganFrame(s: AnimatorState, timings: Recorder, now: real, produced: bool, request: Option<bool>): AnimatorState {
    var t := FrameReset(s, timings, now);
    if t.hasContinuation then Built(t, timings.vsyncTarget, request)
    else if produced then Built(t.(hasContinuation := true), timings.vsyncTarget, request)
    else RequestedFrame(t, true)
  }

  function SizeNoted(s: AnimatorState, size: ISize): AnimatorState {
    s.(dimensionChangePending := s.dimensionChangePending && size == s.lastLayerTreeSize,
       lastLayerTreeSize := size)
  }

  function WithRecorder(s: AnimatorState, freshFrameNumber: nat, now: real): AnimatorState {
    if s.recorder.Some? then s else s.(recorder := Some(Recorder(freshFrameNumber, now, now, Some(now), None)))
  }

  function Completed(s: AnimatorState, size: ISize): AnimatorState {
    s.(committed := if s.hasContinuation then s.committed + [size] else s.committed,
       hasContinuation := false)
  }

  /** The state after Render of a tree of the given size. */
  function Rendered(s: AnimatorState, size: ISize, now: real, freshFrameNumber: nat): AnimatorState {
    var t := Completed(WithRecorder(SizeNoted(s, size), freshFrameNumber, now), size);
    t.(delegateCalls := t.delegateCalls + [OnDraw(t.recorder.value.(buildEnd := Some(now)))],
       recorder := None)
  }
}

/** What the scheduler promises, stated over the step functions. */
module AnimatorProperties {
  import opened LayerTrees
  import opened Wrappers
  import opened Animators

  /** While paused with no dimension change pending, a request only records
      whether a new tree is wanted: nothing is posted and the scheduled flag
      and the permit stay as they were. */
  lemma PausedRequestSchedulesNothing(s: AnimatorState, regenerate: bool)
    requires s.paused && !s.dimensionChangePending
    ensures RequestedFrame(s, regenerate) == s.(regenerateLayerTree := s.regenerateLayerTree || regenerate)
  {
  }

  /** Requests coalesce: a second request adds nothing a single request
      asking for either would not have done; with the permit taken a
      request posts nothing. */
  lemma {:induction false} RequestsCoalesce(s: AnimatorState, first: bool, second: bool)
    requires s.semaphore <= 1
    ensures RequestedFrame(RequestedFrame(s, first), second) == RequestedFrame(s, first || second)
    ensures s.semaphore == 0 ==> RequestedFrame(s, first).postedAwaitVSync == s.postedAwaitVSync
  {
    var t := RequestedFrame(s, first);
    if !(s.paused && !s.dimensionChangePending) && s.semaphore > 0 {
      assert t.semaphore == 0;
    } else {
      assert t.semaphore == s.semaphore && t.paused == s.paused && t.dimensionChangePending == s.dimensionChangePending;
    }
  }

  /** With the permit free and the animator running (or a dimension change
      pending), a request posts exactly one AwaitVSync and marks a frame
      scheduled. */
  lemma RequestTakesPermit(s: AnimatorState, regenerate: bool)
    requires s.semaphore > 0 && !(s.paused && !s.dimensionChangePending)
    ensures var r := RequestedFrame(s, regenerate);
            r.semaphore == s.semaphore - 1 && r.postedAwaitVSync == s.postedAwaitVSync + 1 && r.frameScheduled
  {
  }

  /** Redrawing the last tree gives the permit back and reports a build that
      starts and ends at the same instant. */
  lemma {:induction false} DrawLastIsInstant(s: AnimatorState, timings: Recorder, now: real)
    ensures var r := DrewLast(s, timings, now);
            r.semaphore == s.semaphore + 1 &&
            |r.delegateCalls| == |s.delegateCalls| + 1 &&
            r.delegateCalls[|s.delegateCalls|].OnDrawLastLayerTree? &&
            r.delegateCalls[|s.delegateCalls|].timings.buildStart == r.delegateCalls[|s.delegateCalls|].timings.buildEnd == Some(now) &&
            r.regenerateLayerTree == s.regenerateLayerTree && r.recorder == s.recorder
  {
  }

  /** BeginFrame ends every queued trace flow in order, starts a new idle
      generation, and either tells the delegate to build exactly once (when
      a continuation is held or produced) or tells it nothing and retries,
      which schedules a frame unless the animator is paused.  After a build,
      a frame is scheduled exactly when the delegate asked for one (and the
      animator is not paused), and the next vsync begins a frame only if that
      request asked for a new tree. */
  lemma {:induction false} BeginFrameOutcome(s: AnimatorState, timings: Recorder, now: real, produced: bool, request: Option<bool>)
    requires s.semaphore == 0
    ensures var r := BeganFrame(s, timings, now, produced, request);
            r.traceFlowIds == [] && r.endedFlows == s.endedFlows + s.traceFlowIds &&
            r.notifyIdleTaskId == s.notifyIdleTaskId + 1 &&
            (r.hasContinuation <==> s.hasContinuation || produced) &&
            (!r.hasContinuation ==>
               r.delegateCalls == s.delegateCalls && r.regenerateLayerTree &&
               (r.frameScheduled <==> !(s.paused && !s.dimensionChangePending))) &&
            (r.hasContinuation ==>
               r.delegateCalls == s.delegateCalls + [OnBeginFrame(timings.vsyncTarget)] &&
               (r.regenerateLayerTree <==> request == Some(true)) &&
               (r.frameScheduled <==> request.Some? && !(s.paused && !s.dimensionChangePending)))
  {
    var t := FrameReset(s, timings, now);
    assert t.semaphore == 1 && !t.frameScheduled && !t.regenerateLayerTree;
    if t.hasContinuation || produced {
      var u := if t.hasContinuation then t else t.(hasContinuation := true);
      var v := u.(delegateCalls := u.delegateCalls + [OnBeginFrame(timings.vsyncTarget)]);
      assert BeganFrame(s, timings, now, produced, request) == Built(u, timings.vsyncTarget, request);
      if request.Some? {
        assert RequestedFrame(v, request.value).regenerateLayerTree == request.value;
      }
    }
  }

  /** An idle task is posted only when BeginFrame leaves no frame scheduled,
      and then with the new generation. */
  lemma {:induction false} IdleTaskPostedWhenIdle(s: AnimatorState, timings: Recorder, now: real, produced: bool, request: Option<bool>)
    requires s.semaphore == 0
    ensures var r := BeganFrame(s, timings, now, produced, request);
            (|r.idleTasks| == |s.idleTasks| + 1 <==> (s.hasContinuation || produced) && !r.frameScheduled) &&
            r.idleTasks[..|s.idleTasks|] == s.idleTasks &&
            (|r.idleTasks| > |s.idleTasks| ==> r.idleTasks[|s.idleTasks|] == r.notifyIdleTaskId)
  {
    var t := FrameReset(s, timings, now);
    if t.hasContinuation || produced {
      var u := if t.hasContinuation then t else t.(hasContinuation := true);
      assert BeganFrame(s, timings, now, produced, request) == Built(u, timings.vsyncTarget, request);
    } else {
      assert BeganFrame(s, timings, now, produced, request).idleTasks == s.idleTasks;
    }
  }

  /** A later BeginFrame makes every earlier idle task stale: none of them
      carries the current generation any more, so none will notify. */
  lemma {:induction false} BeginFrameMakesIdleTasksStale(s: AnimatorState, timings: Recorder, now: real,
                                                         produced: bool, request: Option<bool>)
    requires s.semaphore == 0
    requires forall i | 0 <= i < |s.idleTasks| :: s.idleTasks[i] <= s.notifyIdleTaskId
    ensures var r := BeganFrame(s, timings, now, produced, request);
            forall i | 0 <= i < |s.idleTasks| :: r.idleTasks[i] != r.notifyIdleTaskId
  {
    IdleTaskPostedWhenIdle(s, timings, now, produced, request);
    BeginFrameOutcome(s, timings, now, produced, request);
    var r := BeganFrame(s, timings, now, produced, request);
    forall i | 0 <= i < |s.idleTasks|
      ensures r.idleTasks[i] != r.notifyIdleTaskId
    {
      assert r.idleTasks[i] == r.idleTasks[..|s.idleTasks|][i] == s.idleTasks[i];
    }
  }

  /** Render ends a pending dimension change exactly when the size changed,
      remembers the size, commits the tree exactly when a continuation is
      held and hands the delegate timings that end now; timings it had to
      make up start now as well. */
  lemma {:induction false} RenderOutcome(s: AnimatorState, size: ISize, now: real, freshFrameNumber: nat)
    ensures var r := Rendered(s, size, now, freshFrameNumber);
            (r.dimensionChangePending <==> s.dimensionChangePending && size == s.lastLayerTreeSize) &&
            r.lastLayerTreeSize == size && !r.hasContinuation && r.recorder.None? &&
            (s.hasContinuation ==> r.committed == s.committed + [size]) &&
            (!s.hasContinuation ==> r.committed == s.committed) &&
            |r.delegateCalls| == |s.delegateCalls| + 1 &&
            r.delegateCalls[..|s.delegateCalls|] == s.delegateCalls &&
            r.delegateCalls[|s.delegateCalls|].OnDraw? &&
            r.delegateCalls[|s.delegateCalls|].timings.buildEnd == Some(now) &&
            (s.recorder.None? ==> r.delegateCalls[|s.delegateCalls|].timings ==
                                   Recorder(freshFrameNumber, now, now, Some(now), Some(now))) &&
            (s.recorder.Some? ==> r.delegateCalls[|s.delegateCalls|].timings ==
                                   s.recorder.value.(buildEnd := Some(now)))
  {
    var t := Completed(WithRecorder(SizeNoted(s, size), freshFrameNumber, now), size);
    assert t.delegateCalls == s.delegateCalls;
    assert t.recorder == if s.recorder.Some? then s.recorder else Some(Recorder(freshFrameNumber, now, now, Some(now), None));
  }

  /** A delegate that asks for the next frame without a new tree still gets
      a vsync, but that vsync redraws the last tree instead of beginning a
      frame. */
  method RequestWithoutNewTreeRedraws() returns (scheduled: bool, redrew: bool)
    ensures scheduled && redrew
  {
    var animator := new Animator(false, false);
    animator.RequestFrame(true);
    animator.RunAwaitVSync();
    ghost var before := animator.State();
    animator.OnVsync(Recorder(1, 0.0, 16.0, None, None), 1.0, true, Some(false));
    BeginFrameOutcome(before.(vsyncPending := 0), Recorder(1, 0.0, 16.0, None, None), 1.0, true, Some(false));
    scheduled := animator.frameScheduled && animator.postedAwaitVSync == 1;
    animator.RunAwaitVSync();
    var n := |animator.delegateCalls|;
    animator.OnVsync(Recorder(2, 16.0, 32.0, None, None), 17.0, true, None);
    redrew := animator.delegateCalls[n].OnDrawLastLayerTree?;
  }

  /** Three quick requests post a single AwaitVSync; once that vsync has
      begun a frame and the frame has been rendered, a fourth request posts
      again. */
  method CoalescedRequests() returns (postedFirst: nat, postedAfterRender: nat, frameBegun: bool)
    ensures postedFirst == 1 && postedAfterRender == 1 && frameBegun
  {
    var animator := new Animator(false, false);
    animator.RequestFrame(true);
    animator.RequestFrame(true);
    animator.RequestFrame(true);
    postedFirst := animator.postedAwaitVSync;
    animator.RunAwaitVSync();
    ghost var before := animator.State();
    animator.OnVsync(Recorder(1, 0.0, 16.0, None, None), 1.0, true, None);
    BeginFrameOutcome(before.(vsyncPending := 0), Recorder(1, 0.0, 16.0, None, None), 1.0, true, None);
    frameBegun := animator.hasContinuation && animator.semaphore == 1;
    var tree := new LayerTree(ISize(100, 100), 1.0);
    animator.Render(tree, 2.0, 0);
    animator.RequestFrame(true);
    postedAfterRender := animator.postedAwaitVSync;
  }
}
