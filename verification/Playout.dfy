/** The outbound playout queue: feeder, pump and barge-in flush, and the count of unfinished frames that `join` waits for. */
module Playout {
  import opened Text
  import opened Ambient

  const CAPACITY := 300

  type Audio = seq<int>

  /** NotJoined ends the pump; cancelling it abandons the frame in its hand. */
  datatype Pump = Running | Ended | Cancelled(abandoned: Option<Audio>)

  /** `held` is the frame the pump has taken and not yet reported done. `offered` is every frame that was to be
      played, a flush having replaced the ones then queued; `taken` are the frames the pump took. */
  datatype State = State(
    queue: seq<Audio>,
    held: Option<Audio>,
    unfinished: nat,
    pump: Pump,
    offered: seq<Audio>,
    taken: seq<Audio>)

  const FRESH := State([], None, 0, Running, [], [])

  datatype Push = Pushed | Failed | NotJoined

  datatype Step =
    | Put(frame: Audio)
    | Take
    | Report(outcome: Push)
    | EndIdle
    | Flush(fadeoutMs: int)
    | CancelPump

  predicate Enabled(s: State, step: Step) {
    match step
    case Put(_) => |s.queue| < CAPACITY
    case Take => s.pump.Running? && s.held.None? && s.queue != []
    case Report(_) => s.pump.Running? && s.held.Some?
    case EndIdle => s.pump.Running? && s.held.None?
    case Flush(_) => true
    case CancelPump => s.pump.Running?
  }

  /** Frames of a fade-out window, rounded up. */
  function FadeFrames(fadeoutMs: int): nat {
    if fadeoutMs <= 0 then 0 else (fadeoutMs + 9) / 10
  }

  function Least(a: nat, b: nat): nat { if a < b then a else b }

  /** Cuts a run of samples into frames of the given lengths. */
  function Recut(samples: Audio, shape: seq<Audio>): seq<Audio>
    requires |samples| == |Flatten(shape)|
    decreases |shape|
  {
    if shape == [] then [] else [samples[..|shape[0]|]] + Recut(samples[|shape[0]|..], shape[1..])
  }

  /** What a flush leaves: the first frames of the fade-out window, ramped down to silence. */
  function Trail(queue: seq<Audio>, fadeoutMs: int): (r: seq<Audio>)
  {
    var kept := queue[..Least(FadeFrames(fadeoutMs), |queue|)];
    Recut(Faded(Flatten(kept)), kept)
  }

  function Apply(s: State, step: Step): State
    requires Enabled(s, step) && (step.Report? ==> s.unfinished > 0)
    requires step.Flush? ==> s.unfinished >= |s.queue| && |s.offered| >= |s.queue|
  {
    match step
    case Put(f) => s.(queue := s.queue + [f], unfinished := s.unfinished + 1, offered := s.offered + [f])
    case Take => s.(queue := s.queue[1..], held := Some(s.queue[0]), taken := s.taken + [s.queue[0]])
    case Report(outcome) =>
      s.(held := None, unfinished := s.unfinished - 1, pump := if outcome.NotJoined? then Ended else s.pump)
    case EndIdle => s.(pump := Ended)
    case Flush(ms) =>
      var trail := Trail(s.queue, ms);
      s.(queue := trail, unfinished := s.unfinished - |s.queue| + |trail|,
         offered := s.offered[..|s.offered| - |s.queue|] + trail)
    case CancelPump => s.(pump := Cancelled(s.held), held := None)
  }

  function Count<T>(x: Option<T>): nat { if x.Some? then 1 else 0 }

  /** One for a frame lost with a cancelled pump. */
  function Abandoned(s: State): nat {
    if s.pump.Cancelled? then Count(s.pump.abandoned) else 0
  }

  predicate Inv(s: State) {
    && |s.queue| <= CAPACITY
    && (s.held.Some? ==> s.pump.Running?)
    && s.unfinished == |s.queue| + Count(s.held) + Abandoned(s)
    && s.offered == s.taken + s.queue
  }

  lemma {:induction false} RecutShapes(samples: Audio, shape: seq<Audio>)
    requires |samples| == |Flatten(shape)|
    ensures |Recut(samples, shape)| == |shape| && Flatten(Recut(samples, shape)) == samples
    ensures forall k :: 0 <= k < |shape| ==> |Recut(samples, shape)[k]| == |shape[k]|
    decreases |shape|
  {
    if shape != [] {
      RecutShapes(samples[|shape[0]|..], shape[1..]);
      var later := Recut(samples[|shape[0]|..], shape[1..]);
      assert Recut(samples, shape)[1..] == later;
    }
  }

  lemma TrailShapes(queue: seq<Audio>, ms: int)
    ensures |Trail(queue, ms)| == Least(FadeFrames(ms), |queue|)
  {
    var kept := queue[..Least(FadeFrames(ms), |queue|)];
    RecutShapes(Faded(Flatten(kept)), kept);
  }

  /** Reporting a frame done never underflows the count, re-queueing never overflows the queue. */
  lemma StepKeeps(s: State, step: Step)
    requires Inv(s) && Enabled(s, step)
    ensures Inv(Apply(s, step))
  {
    if step.Flush? {
      TrailShapes(s.queue, step.fadeoutMs);
    }
  }

  // ----- every run ----------------------------------------------------------

  ghost predicate Runs(s: State, steps: seq<Step>)
    requires Inv(s)
    decreases |steps|
  {
    steps == [] || (Enabled(s, steps[0]) && (StepKeeps(s, steps[0]); Runs(Apply(s, steps[0]), steps[1..])))
  }

  ghost function After(s: State, steps: seq<Step>): State
    requires Inv(s) && Runs(s, steps)
    decreases |steps|
  {
    if steps == [] then s else StepKeeps(s, steps[0]); After(Apply(s, steps[0]), steps[1..])
  }

  /** Whatever the feeder, the pump, its failures and barge-ins do: the unfinished count is the frames queued, held
      or abandoned; `join` can return exactly when there are none; frames are taken in the order offered. */
  lemma {:induction false} EveryRunCounts(s: State, steps: seq<Step>)
    requires Inv(s) && Runs(s, steps)
    ensures Inv(After(s, steps))
    ensures var n := After(s, steps); n.unfinished == 0 <==> n.queue == [] && n.held.None? && Abandoned(n) == 0
    ensures var n := After(s, steps); n.taken <= n.offered && |n.queue| <= CAPACITY
    decreases |steps|
  {
    if steps != [] {
      StepKeeps(s, steps[0]);
      EveryRunCounts(Apply(s, steps[0]), steps[1..]);
    }
  }

  /** A flush keeps the fade-out window at most, as the fade of the frames that were next, at their lengths. */
  lemma FlushTrailsOff(s: State, ms: int)
    requires Inv(s)
    ensures var n := Apply(s, Flush(ms)); |n.queue| == Least(FadeFrames(ms), |s.queue|)
    ensures var n := Apply(s, Flush(ms)); Flatten(n.queue) == Faded(Flatten(s.queue[..|n.queue|]))
    ensures var n := Apply(s, Flush(ms)); forall k :: 0 <= k < |n.queue| ==> |n.queue[k]| == |s.queue[k]|
    ensures var n := Apply(s, Flush(ms)); n.held == s.held && n.taken == s.taken
  {
    var kept := s.queue[..Least(FadeFrames(ms), |s.queue|)];
    RecutShapes(Faded(Flatten(kept)), kept);
    assert Trail(s.queue, ms) == Recut(Faded(Flatten(kept)), kept);
    assert kept == s.queue[..|kept|];
    forall k | 0 <= k < |kept| ensures |Trail(s.queue, ms)[k]| == |s.queue[k]| {
      assert kept[k] == s.queue[k];
    }
  }

  // ----- the pump at work -------------------------------------------------------

  /** A step of a pump that is not told to stop: a frame is taken, or pushed, or fails to be. */
  predicate Pumps(step: Step) {
    step.Take? || (step.Report? && !step.outcome.NotJoined?)
  }

  /** Two steps for each frame queued, one for the frame held. */
  function Work(s: State): nat {
    2 * |s.queue| + Count(s.held)
  }

  /** Whatever becomes of the pushes, a running pump works off the queue in exactly Work(s) steps and is not stuck
      before. */
  lemma {:induction false} PumpDrains(s: State, steps: seq<Step>)
    requires Inv(s) && s.pump.Running? && Runs(s, steps) && forall i :: 0 <= i < |steps| ==> Pumps(steps[i])
    ensures |steps| <= Work(s) && After(s, steps).pump.Running?
    ensures After(s, steps).unfinished == 0 <==> |steps| == Work(s)
    ensures |steps| < Work(s) ==> Enabled(After(s, steps), Take) || Enabled(After(s, steps), Report(Pushed))
    decreases |steps|
  {
    if steps != [] {
      StepKeeps(s, steps[0]);
      PumpDrains(Apply(s, steps[0]), steps[1..]);
    }
  }

  // ----- after the pump ---------------------------------------------------------
  // a pump started later serves a queue of its own, so nothing takes from this one any more

  /** Until the call sets another, the window of every flush. */
  const DEFAULT_BARGE_IN_FADEOUT_MS := 100

  /** Every flush of the run uses the window of the call. */
  predicate Fades(steps: seq<Step>, ms: int) {
    forall i :: 0 <= i < |steps| && steps[i].Flush? ==> steps[i].fadeoutMs == ms
  }

  /** Some run with this window comes to a point at which `join` returns. */
  ghost predicate CanJoin(s: State, ms: int)
    requires Inv(s)
  {
    exists steps :: Runs(s, steps) && Fades(steps, ms) && After(s, steps).unfinished == 0
  }

  /** Without a pump no run gets rid of a frame that is lost, nor of the last frame a fade-out keeps. */
  lemma {:induction false} WaitsForEver(s: State, steps: seq<Step>, ms: int)
    requires Inv(s) && !s.pump.Running? && Runs(s, steps) && Fades(steps, ms)
    requires Abandoned(s) == 1 || (s.queue != [] && ms > 0)
    ensures After(s, steps).unfinished > 0
    decreases |steps|
  {
    if steps != [] {
      StepKeeps(s, steps[0]);
      if steps[0].Flush? { TrailShapes(s.queue, ms); }
      assert Fades(steps[1..], ms) by {
        forall i | 0 <= i < |steps| - 1 && steps[1..][i].Flush? ensures steps[1..][i].fadeoutMs == ms {
          assert steps[1..][i] == steps[i + 1];
        }
      }
      WaitsForEver(Apply(s, steps[0]), steps[1..], ms);
    }
  }

  lemma HardCut(s: State, ms: int)
    requires Inv(s) && s.held.None? && Abandoned(s) == 0 && ms <= 0
    ensures CanJoin(s, ms)
  {
    var steps := [Flush(ms)];
    StepKeeps(s, Flush(ms));
    TrailShapes(s.queue, ms);
    assert Runs(Apply(s, Flush(ms)), steps[1..]);
    assert After(s, steps) == Apply(s, Flush(ms));
  }

  /** Once the pump is gone `join` can return exactly if no frame was lost with it and either nothing is queued or
      flushes are hard cuts. */
  lemma JoinWithoutPumpIff(s: State, ms: int)
    requires Inv(s) && !s.pump.Running?
    ensures CanJoin(s, ms) <==> Abandoned(s) == 0 && (s.queue == [] || ms <= 0)
  {
    if Abandoned(s) == 0 && s.queue == [] {
      assert Runs(s, []) && Fades([], ms) && After(s, []) == s;
    } else if Abandoned(s) == 0 && ms <= 0 {
      HardCut(s, ms);
    } else {
      forall steps | Runs(s, steps) && Fades(steps, ms) ensures After(s, steps).unfinished > 0 {
        WaitsForEver(s, steps, ms);
      }
    }
  }

  /** After the pump is cancelled: it must have held no frame, and left none queued unless flushes are hard cuts. */
  lemma JoinAfterCancelIff(s: State, ms: int)
    requires Inv(s) && s.pump.Running?
    ensures Inv(Apply(s, CancelPump))
    ensures CanJoin(Apply(s, CancelPump), ms) <==> s.held.None? && (s.queue == [] || ms <= 0)
  {
    StepKeeps(s, CancelPump);
    JoinWithoutPumpIff(Apply(s, CancelPump), ms);
  }

  /** After the pump found the channel left, with a frame in its hand or without: only the queue counts. */
  lemma JoinAfterLeavingIff(s: State, step: Step, ms: int)
    requires Inv(s) && Enabled(s, step) && (step == EndIdle || step == Report(NotJoined))
    ensures Inv(Apply(s, step))
    ensures CanJoin(Apply(s, step), ms) <==> s.queue == [] || ms <= 0
  {
    StepKeeps(s, step);
    JoinWithoutPumpIff(Apply(s, step), ms);
  }

  /** The call is hung up while the pump sleeps between two frames: with the default window whoever waits for the
      frame still queued waits for ever. */
  lemma QueuedFrameBlocksJoin(frame: Audio) returns (steps: seq<Step>)
    ensures Runs(FRESH, steps) && Inv(After(FRESH, steps)) && After(FRESH, steps).unfinished == 1
    ensures After(FRESH, steps).pump == Cancelled(None) && !CanJoin(After(FRESH, steps), DEFAULT_BARGE_IN_FADEOUT_MS)
  {
    var put := Apply(FRESH, Put(frame));
    StepKeeps(FRESH, Put(frame));
    JoinAfterCancelIff(put, DEFAULT_BARGE_IN_FADEOUT_MS);
    steps := [Put(frame), CancelPump];
    assert steps[1..] == [CancelPump] && [CancelPump][1..] == [];
    assert Runs(put, [CancelPump]) && After(put, [CancelPump]) == Apply(put, CancelPump);
  }

  // ----- the queue object ---------------------------------------------------

  lemma {:induction false} RecutUnique(samples: Audio, shape: seq<Audio>, out: seq<Audio>)
    requires |out| == |shape| && Flatten(out) == samples && |samples| == |Flatten(shape)|
    requires forall k :: 0 <= k < |shape| ==> |out[k]| == |shape[k]|
    ensures out == Recut(samples, shape)
    decreases |shape|
  {
    if shape != [] {
      assert samples[..|shape[0]|] == out[0] && samples[|shape[0]|..] == Flatten(out[1..]);
      RecutUnique(samples[|shape[0]|..], shape[1..], out[1..]);
    }
  }

  class PlayoutQueue {
    var queue: seq<Audio>
    var unfinished: nat
    var held: Option<Audio>
    var pump: Pump
    ghost var offered: seq<Audio>
    ghost var taken: seq<Audio>

    ghost function View(): State
      reads this
    {
      State(queue, held, unfinished, pump, offered, taken)
    }

    constructor ()
      ensures View() == FRESH && Inv(View())
    {
      queue, held, unfinished, pump, offered, taken := [], None, 0, Running, [], [];
    }

    /** False, and no change, where the source waits for room. */
    method TryPut(frame: Audio) returns (ok: bool)
      requires Inv(View())
      modifies this
      ensures Inv(View()) && ok == (|old(queue)| < CAPACITY)
      ensures View() == if ok then Apply(old(View()), Put(frame)) else old(View())
    {
      ok := |queue| < CAPACITY;
      if ok {
        queue, unfinished, offered := queue + [frame], unfinished + 1, offered + [frame];
      }
    }

    /** The pump's half-step before the push: a frame, or silence if none is queued. */
    method TakeFrame() returns (frame: Option<Audio>)
      requires Inv(View()) && pump.Running? && held.None?
      modifies this
      ensures Inv(View()) && frame == held && frame.Some? == (old(queue) != [])
      ensures View() == if old(queue) != [] then Apply(old(View()), Take) else old(View())
    {
      frame := None;
      if queue != [] {
        frame := Some(queue[0]);
        held, taken := frame, taken + [queue[0]];
        queue := queue[1..];
      }
    }

    /** The pump's half-step after the push, whatever became of it. */
    method AfterPush(outcome: Push)
      requires Inv(View()) && pump.Running?
      modifies this
      ensures Inv(View())
      ensures old(held).Some? ==> View() == Apply(old(View()), Report(outcome))
      ensures old(held).None? ==> View() == if outcome.NotJoined? then Apply(old(View()), EndIdle) else old(View())
    {
      if held.Some? {
        unfinished := unfinished - 1;
        held := None;
      }
      if outcome.NotJoined? {
        pump := Ended;
      }
    }

    /** The pump task is cancelled; a frame it held is never reported. */
    method CancelPump()
      requires Inv(View()) && Enabled(View(), Step.CancelPump)
      modifies this
      ensures View() == Apply(old(View()), Step.CancelPump) && Inv(View())
    {
      StepKeeps(View(), Step.CancelPump);
      pump, held := Cancelled(held), None;
    }

    /** Drains the queue, then puts back the frames of the fade-out window ramped down. */
    method FlushPlayout(fadeoutMs: int)
      requires Inv(View())
      modifies this
      ensures View() == Apply(old(View()), Flush(fadeoutMs)) && Inv(View())
    {
      StepKeeps(View(), Flush(fadeoutMs));
      TrailShapes(queue, fadeoutMs);
      var pending := Drain();
      if fadeoutMs <= 0 || pending == [] {
        return;
      }
      var n := Least((fadeoutMs + 9) / 10, |pending|);
      var faded := ApplyFadeout(pending[..n]);
      RecutUnique(Faded(Flatten(pending[..n])), pending[..n], faded);
      Requeue(faded);
    }

    method Drain() returns (pending: seq<Audio>)
      requires Inv(View())
      modifies this
      ensures pending == old(queue) && Inv(View())
      ensures View() == old(View()).(queue := [], unfinished := old(unfinished) - |old(queue)|, offered := old(taken))
    {
      pending := [];
      while queue != []
        invariant pending + queue == old(queue) && unfinished == old(unfinished) - |pending| >= |queue|
        invariant held == old(held) && pump == old(pump) && taken == old(taken)
        decreases |queue|
      {
        pending := pending + [queue[0]];
        queue := queue[1..];
        unfinished := unfinished - 1;
      }
      offered := taken;
    }

    method Requeue(frames: seq<Audio>)
      requires Inv(View()) && |queue| + |frames| <= CAPACITY
      modifies this
      ensures View() == old(View()).(queue := old(queue) + frames, unfinished := old(unfinished) + |frames|,
                                     offered := old(offered) + frames)
    {
      var i := 0;
      while i < |frames|
        invariant i <= |frames| && Inv(View())
        invariant queue == old(queue) + frames[..i] && unfinished == old(unfinished) + i
        invariant offered == old(offered) + frames[..i]
        invariant held == old(held) && pump == old(pump) && taken == old(taken)
      {
        var ok := TryPut(frames[i]);
        i := i + 1;
      }
      assert frames[..i] == frames;
    }
  }
}
