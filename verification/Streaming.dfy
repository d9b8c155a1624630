/** One streamed reply: eager generation, replay, the synthesis producer and the player, interleaved. */
module Streaming {
  import opened Text

  /** The bounded queue between producer and player. */
  const MAX_JOBS := 2

  datatype Sentence = Sentence(text: string)

  function TextOf(sentences: seq<Sentence>): string {
    if sentences == [] then "" else sentences[0].text + TextOf(sentences[1..])
  }

  datatype Producer = Idle | Holding(job: Option<Sentence>) | Stopped

  datatype Player = Waiting | Playing(sentence: Sentence) | Done(cut: Option<Sentence>, failed: bool)

  /** `buffer` holds the generated sentences, of which `replayed` were handed to the producer; `fallback` is the
      default reply, if one was needed. A queue entry of `None` is the completion sentinel. `dropped` is the
      job the producer held when it was cancelled. */
  datatype Reply = Reply(
    eager: bool,
    buffer: seq<Sentence>,
    replayed: nat,
    generated: bool,
    fallback: Option<Sentence>,
    broken: bool,
    producer: Producer,
    queue: seq<Option<Sentence>>,
    player: Player,
    played: seq<Sentence>,
    dropped: seq<Sentence>)

  function Fresh(eager: bool): Reply {
    Reply(eager, [], 0, false, None, false, Idle, [], Waiting, [], [])
  }

  /** The atomic steps between awaits. */
  datatype Step =
    | Generate(sentence: Sentence)      // the eager task appends a sentence
    | EndGeneration                   // ... is finished, failed or was cancelled
    | Pull                            // the producer takes the next buffered sentence
    | Direct(sentence: Sentence)        // without an eager task the producer drives the generation itself
    | FallBack(sentence: Sentence)      // nothing was generated: the default reply
    | Complete                        // the sentences are exhausted: the sentinel
    | Break                           // the sentence generator raised in the producer: the sentinel
    | Unblock                         // a job waiting for room in the queue gets in
    | Take                            // the player takes the next job
    | Finish                          // ... has played it
    | BargeIn                         // ... is cut off
    | Fail                            // ... fails on it
    | CancelProducer                  // teardown

  function SomeSeq<T>(x: Option<T>): seq<T> { if x.Some? then [x.value] else [] }

  /** The sentences among the queued jobs. */
  function Jobs(queue: seq<Option<Sentence>>): seq<Sentence> {
    if queue == [] then [] else SomeSeq(queue[0]) + Jobs(queue[1..])
  }

  predicate Enabled(s: Reply, step: Step) {
    match step
    case Generate(_) => s.eager && !s.generated
    case EndGeneration => !s.generated
    case Pull => s.producer.Idle? && s.replayed < |s.buffer|
    case Direct(_) => s.producer.Idle? && !s.eager && !s.generated
    case FallBack(_) =>
      && s.producer.Idle? && s.generated && s.replayed == |s.buffer| && s.fallback.None?
      && Blank(TextOf(s.buffer))
    case Complete =>
      && s.producer.Idle? && s.generated && s.replayed == |s.buffer|
      && (s.fallback.Some? || !Blank(TextOf(s.buffer)))
    case Break => s.producer.Idle?
    case Unblock => s.producer.Holding? && |s.queue| < MAX_JOBS
    case Take => s.player.Waiting? && s.queue != []
    case Finish => s.player.Playing?
    case BargeIn => s.player.Playing?
    case Fail => s.player.Playing?
    case CancelProducer => s.player.Done? && !s.producer.Stopped?
  }

  /** The producer puts a job, or keeps it while the queue is full. */
  function Put(s: Reply, job: Option<Sentence>): Reply {
    if |s.queue| < MAX_JOBS then s.(queue := s.queue + [job], producer := if job.None? then Stopped else Idle)
    else s.(producer := Holding(job))
  }

  function Apply(s: Reply, step: Step): Reply
    requires Enabled(s, step)
  {
    match step
    case Generate(x) => s.(buffer := s.buffer + [x])
    case EndGeneration => s.(generated := true)
    case Pull => Put(s.(replayed := s.replayed + 1), Some(s.buffer[s.replayed]))
    case Direct(x) => Put(s.(buffer := s.buffer + [x], replayed := s.replayed + 1), Some(x))
    case FallBack(x) => Put(s.(fallback := Some(x)), Some(x))
    case Complete => Put(s, None)
    case Break => Put(s.(broken := true), None)
    case Unblock => Put(s, s.producer.job)
    case Take =>
      s.(queue := s.queue[1..],
         player := if s.queue[0].None? then Done(None, false) else Playing(s.queue[0].value))
    case Finish => s.(played := s.played + [s.player.sentence], player := Waiting)
    case BargeIn => s.(player := Done(Some(s.player.sentence), false))
    case Fail => s.(player := Done(Some(s.player.sentence), true))
    case CancelProducer =>
      s.(producer := Stopped, dropped := if s.producer.Holding? then SomeSeq(s.producer.job) else s.dropped)
  }

  // ----- conservation -------------------------------------------------------

  /** Everything handed to the producer, in order. */
  function Given(s: Reply): seq<Sentence>
    requires s.replayed <= |s.buffer|
  {
    s.buffer[..s.replayed] + SomeSeq(s.fallback)
  }

  function Current(s: Reply): seq<Sentence> {
    match s.player case Waiting => [] case Playing(x) => [x] case Done(cut, _) => SomeSeq(cut)
  }

  /** The one job that is neither queued nor played: in the producer's hand, or dropped with it. */
  function Held(s: Reply): seq<Sentence> {
    if s.producer.Holding? then SomeSeq(s.producer.job) else s.dropped
  }

  /** Where each of them is now. */
  function Placed(s: Reply): seq<Sentence> {
    s.played + Current(s) + Jobs(s.queue) + Held(s)
  }

  /** No sentence is lost, duplicated or reordered. */
  ghost predicate Conserved(s: Reply) {
    s.replayed <= |s.buffer| && Given(s) == Placed(s)
  }

  /** Everything was generated and handed over. */
  predicate AllHandedOver(s: Reply) {
    s.generated && s.replayed == |s.buffer| && (s.fallback.Some? || !Blank(TextOf(s.buffer)))
  }

  /** The completion sentinel closes the queue. */
  predicate Sealed(s: Reply) {
    s.queue != [] && s.queue[|s.queue| - 1].None?
  }

  /** The sentinel is on its way or was taken. */
  predicate Completing(s: Reply) {
    Sealed(s) || s.producer == Holding(None) || s.player == Done(None, false)
  }

  ghost predicate Shaped(s: Reply) {
    && (!s.eager ==> s.replayed == |s.buffer|)
    && (s.fallback.Some? ==> s.generated && s.replayed == |s.buffer| && Blank(TextOf(s.buffer)))
    && |s.queue| <= MAX_JOBS && (forall i :: 0 <= i < |s.queue| - 1 ==> s.queue[i].Some?)
    && |s.dropped| <= 1 && (s.dropped != [] ==> s.producer.Stopped? && s.player.Done?)
    // the sentinel is sent only when nothing is left to hand over, and is the last thing sent
    && (Sealed(s) ==> s.producer.Stopped?)
    && (s.producer.Stopped? && !s.player.Done? ==> Sealed(s))
    && (Completing(s) && !s.broken ==> AllHandedOver(s))
    && (s.player == Done(None, false) ==> s.queue == [] && s.producer.Stopped? && s.dropped == [])
  }

  ghost predicate Inv(s: Reply) {
    Conserved(s) && Shaped(s)
  }

  lemma {:induction false} JobsAppend(queue: seq<Option<Sentence>>, job: Option<Sentence>)
    ensures Jobs(queue + [job]) == Jobs(queue) + SomeSeq(job)
  {
    if queue == [] {
      assert queue + [job] == [job];
    } else {
      assert (queue + [job])[1..] == queue[1..] + [job];
      JobsAppend(queue[1..], job);
    }
  }

  lemma AppendToThird<T>(a: seq<T>, b: seq<T>, c: seq<T>, d: seq<T>, x: seq<T>)
    requires d == []
    ensures a + b + (c + x) + d == a + b + c + d + x
  {
  }

  lemma AppendToFourth<T>(a: seq<T>, b: seq<T>, c: seq<T>, d: seq<T>, x: seq<T>)
    requires d == []
    ensures a + b + c + x == a + b + c + d + x
  {
  }

  /** Putting a job moves it into the queue or the producer's hand, behind everything else. */
  lemma PutPlaces(s: Reply, job: Option<Sentence>)
    requires s.producer.Idle? && s.dropped == []
    ensures Placed(Put(s, job)) == Placed(s) + SomeSeq(job)
  {
    var n := Put(s, job);
    if |s.queue| < MAX_JOBS {
      JobsAppend(s.queue, job);
      AppendToThird(s.played, Current(s), Jobs(s.queue), s.dropped, SomeSeq(job));
    } else {
      AppendToFourth(s.played, Current(s), Jobs(s.queue), s.dropped, SomeSeq(job));
    }
  }

  lemma TakeOneMore<T>(b: seq<T>, r: nat, f: seq<T>)
    requires r < |b| && f == []
    ensures b[..r + 1] + f == b[..r] + f + [b[r]]
  {
  }

  lemma GrowAndTake<T>(b: seq<T>, x: T, f: seq<T>)
    requires f == []
    ensures (b + [x])[..|b| + 1] + f == b[..|b|] + f + [x]
  {
  }

  lemma AppendToEmpty<T>(b: seq<T>, f: seq<T>, x: seq<T>)
    requires f == []
    ensures b + x == b + f + x
  {
  }

  lemma PullConserves(s: Reply)
    requires Inv(s) && Enabled(s, Pull)
    ensures Conserved(Apply(s, Pull))
  {
    TakeOneMore(s.buffer, s.replayed, SomeSeq(s.fallback));
    PutPlaces(s.(replayed := s.replayed + 1), Some(s.buffer[s.replayed]));
  }

  lemma DirectConserves(s: Reply, x: Sentence)
    requires Inv(s) && Enabled(s, Direct(x))
    ensures Conserved(Apply(s, Direct(x)))
  {
    GrowAndTake(s.buffer, x, SomeSeq(s.fallback));
    PutPlaces(s.(buffer := s.buffer + [x], replayed := s.replayed + 1), Some(x));
  }

  lemma FallBackConserves(s: Reply, x: Sentence)
    requires Inv(s) && Enabled(s, FallBack(x))
    ensures Conserved(Apply(s, FallBack(x)))
  {
    AppendToEmpty(s.buffer[..s.replayed], SomeSeq(s.fallback), SomeSeq(Some(x)));
    PutPlaces(s.(fallback := Some(x)), Some(x));
  }

  lemma FourthToThird<T>(a: seq<T>, b: seq<T>, c: seq<T>, d: seq<T>, x: seq<T>)
    requires d == []
    ensures a + b + (c + x) + d == a + b + c + x
  {
  }

  lemma ThirdToSecond<T>(a: seq<T>, b: seq<T>, c: seq<T>, d: seq<T>, x: seq<T>)
    requires b == []
    ensures a + x + c + d == a + b + (x + c) + d
  {
  }

  lemma SecondToFirst<T>(a: seq<T>, b: seq<T>, c: seq<T>, d: seq<T>, x: seq<T>)
    requires b == []
    ensures (a + x) + b + c + d == a + x + c + d
  {
  }

  lemma UnblockConserves(s: Reply)
    requires Inv(s) && Enabled(s, Unblock)
    ensures Conserved(Apply(s, Unblock))
  {
    JobsAppend(s.queue, s.producer.job);
    FourthToThird(s.played, Current(s), Jobs(s.queue), s.dropped, SomeSeq(s.producer.job));
  }

  lemma TakeConserves(s: Reply)
    requires Inv(s) && Enabled(s, Take)
    ensures Conserved(Apply(s, Take))
  {
    assert Jobs(s.queue) == SomeSeq(s.queue[0]) + Jobs(s.queue[1..]);
    ThirdToSecond(s.played, Current(s), Jobs(s.queue[1..]), Held(s), SomeSeq(s.queue[0]));
  }

  lemma FinishConserves(s: Reply)
    requires Inv(s) && Enabled(s, Finish)
    ensures Conserved(Apply(s, Finish))
  {
    SecondToFirst(s.played, Current(Apply(s, Finish)), Jobs(s.queue), Held(s), [s.player.sentence]);
  }

  lemma SentinelConserves(s: Reply, step: Step)
    requires Inv(s) && Enabled(s, step) && (step.Complete? || step.Break?)
    ensures Conserved(Apply(s, step))
  {
    PutPlaces(s.(broken := s.broken || step.Break?), None);
  }

  lemma QuietConserves(s: Reply, step: Step)
    requires Inv(s) && Enabled(s, step)
    requires step.Generate? || step.EndGeneration? || step.BargeIn? || step.Fail? || step.CancelProducer?
    ensures Conserved(Apply(s, step))
  {
    if step.Generate? {
      assert (s.buffer + [step.sentence])[..s.replayed] == s.buffer[..s.replayed];
    }
  }

  lemma StepConserves(s: Reply, step: Step)
    requires Inv(s) && Enabled(s, step)
    ensures Conserved(Apply(s, step))
  {
    match step
    case Pull => PullConserves(s);
    case Direct(x) => DirectConserves(s, x);
    case FallBack(x) => FallBackConserves(s, x);
    case Unblock => UnblockConserves(s);
    case Take => TakeConserves(s);
    case Finish => FinishConserves(s);
    case Complete => SentinelConserves(s, step);
    case Break => SentinelConserves(s, step);
    case _ => QuietConserves(s, step);
  }

  lemma PutShapes(s: Reply, job: Option<Sentence>)
    requires Shaped(s) && !s.producer.Stopped?
    requires job.None? && !s.broken ==> AllHandedOver(s)
    ensures Shaped(Put(s, job))
  {
  }

  lemma TakeShapes(s: Reply)
    requires Shaped(s) && Enabled(s, Take)
    ensures Shaped(Apply(s, Take))
  {
  }

  lemma HandOverShapes(s: Reply, step: Step)
    requires Shaped(s) && s.replayed <= |s.buffer| && Enabled(s, step) && (step.Pull? || step.Direct? || step.FallBack?)
    ensures Shaped(Apply(s, step))
  {
    match step
    case Pull => PutShapes(s.(replayed := s.replayed + 1), Some(s.buffer[s.replayed]));
    case Direct(x) => PutShapes(s.(buffer := s.buffer + [x], replayed := s.replayed + 1), Some(x));
    case FallBack(x) => PutShapes(s.(fallback := Some(x)), Some(x));
  }

  lemma QuietShapes(s: Reply, step: Step)
    requires Shaped(s) && s.replayed <= |s.buffer| && Enabled(s, step)
    requires step.Generate? || step.EndGeneration? || step.Finish? || step.BargeIn? || step.Fail? || step.CancelProducer?
    ensures Shaped(Apply(s, step))
  {
  }

  lemma StepShapes(s: Reply, step: Step)
    requires Shaped(s) && s.replayed <= |s.buffer| && Enabled(s, step)
    ensures Shaped(Apply(s, step))
  {
    match step
    case Pull => HandOverShapes(s, step);
    case Direct(_) => HandOverShapes(s, step);
    case FallBack(_) => HandOverShapes(s, step);
    case Complete => PutShapes(s, None);
    case Break => PutShapes(s.(broken := true), None);
    case Unblock => PutShapes(s, s.producer.job);
    case Take => TakeShapes(s);
    case _ => QuietShapes(s, step);
  }

  lemma StepKeeps(s: Reply, step: Step)
    requires Inv(s) && Enabled(s, step)
    ensures Inv(Apply(s, step))
  {
    StepConserves(s, step);
    StepShapes(s, step);
  }

  // ----- every run ----------------------------------------------------------

  predicate Runs(s: Reply, steps: seq<Step>)
    decreases |steps|
  {
    steps == [] || (Enabled(s, steps[0]) && Runs(Apply(s, steps[0]), steps[1..]))
  }

  function After(s: Reply, steps: seq<Step>): Reply
    requires Runs(s, steps)
    decreases |steps|
  {
    if steps == [] then s else After(Apply(s, steps[0]), steps[1..])
  }

  lemma {:induction false} RunsKeep(s: Reply, steps: seq<Step>)
    requires Inv(s) && Runs(s, steps)
    ensures Inv(After(s, steps))
    decreases |steps|
  {
    if steps != [] {
      StepKeeps(s, steps[0]);
      RunsKeep(Apply(s, steps[0]), steps[1..]);
    }
  }

  /** A player that is done stays so. */
  lemma {:induction false} PlayerStays(s: Reply, steps: seq<Step>)
    requires Runs(s, steps) && s.player.Done?
    ensures After(s, steps).player == s.player && After(s, steps).played == s.played
    decreases |steps|
  {
    if steps != [] { PlayerStays(Apply(s, steps[0]), steps[1..]); }
  }

  /** In every interleaving no sentence is lost, duplicated or reordered on its way to the listener. */
  lemma EveryRunConserves(eager: bool, steps: seq<Step>)
    requires Runs(Fresh(eager), steps)
    ensures Inv(After(Fresh(eager), steps))
  {
    RunsKeep(Fresh(eager), steps);
  }

  /** The whole reply so far. */
  function Whole(s: Reply): seq<Sentence> {
    s.buffer + SomeSeq(s.fallback)
  }

  lemma SplitOff<T>(w: seq<T>, b: seq<T>, r: nat, f: seq<T>)
    requires r <= |b| && w == b + f && (f == [] || r == |b|)
    ensures w == b[..r] + f + b[r..]
  {
  }

  lemma WholeIsGivenAndTail(s: Reply)
    requires Inv(s)
    ensures Whole(s) == Placed(s) + s.buffer[s.replayed..]
  {
    SplitOff(Whole(s), s.buffer, s.replayed, SomeSeq(s.fallback));
  }

  /** What teardown keeps for a restructure turn: the sentence cut off, the queue and, if eager, the buffer's tail. */
  function Captured(s: Reply): seq<Sentence> {
    Current(s) + Jobs(s.queue) + Tail(s)
  }

  /** The eager buffer's part not yet replayed. */
  function Tail(s: Reply): seq<Sentence> {
    if s.eager && s.replayed <= |s.buffer| then s.buffer[s.replayed..] else []
  }

  lemma WholeInParts(s: Reply)
    requires Inv(s) && s.producer.Stopped?
    ensures Whole(s) == s.played + Current(s) + Jobs(s.queue) + s.dropped + Tail(s)
  {
    WholeIsGivenAndTail(s);
    assert Tail(s) == s.buffer[s.replayed..];
  }

  /** `part` is `rest` without the stretch `gap` that begins at index `at`. */
  predicate LacksOnly<T(==)>(part: seq<T>, rest: seq<T>, at: nat, gap: seq<T>) {
    at + |gap| <= |rest| && rest[at..at + |gap|] == gap && part == rest[..at] + rest[at + |gap|..]
  }

  /** `kept` is what of `whole` comes after `played`, in order and without `gap`; all of it if the gap is empty. */
  predicate KeepsTheRest<T(==)>(whole: seq<T>, played: seq<T>, kept: seq<T>, at: nat, gap: seq<T>) {
    && played <= whole && LacksOnly(kept, whole[|played|..], at, gap)
    && (kept == whole[|played|..] <==> gap == [])
  }

  lemma DropMiddle<T>(w: seq<T>, p: seq<T>, c: seq<T>, q: seq<T>, d: seq<T>, t: seq<T>)
    requires w == p + c + q + d + t
    ensures KeepsTheRest(w, p, c + q + t, |c| + |q|, d)
  {
    assert p + c + q + d + t == p + (c + q + d + t);
    var rest := w[|p|..];
    assert rest == (c + q) + d + t;
    assert rest[..|c| + |q|] == c + q;
  }

  /** `kept` is the unplayed part of a torn-down reply, in order, but for the sentence its producer held. */
  ghost predicate IsUnplayed(torn: Reply, kept: seq<Sentence>) {
    && |torn.dropped| <= 1
    && KeepsTheRest(Whole(torn), torn.played, kept, |Current(torn)| + |Jobs(torn.queue)|, torn.dropped)
  }

  /** The remainder kept at a barge-in is the unplayed part of the reply in order, without the at most one sentence
      the cancelled producer held; it is all of it exactly when the producer held none. */
  lemma RemainderIsUnplayed(s: Reply)
    requires Inv(s) && s.player.Done? && s.producer.Stopped?
    ensures IsUnplayed(s, Captured(s))
  {
    WholeInParts(s);
    RemainderOfParts(s);
  }

  lemma RemainderOfParts(s: Reply)
    requires s.replayed <= |s.buffer|
    requires Whole(s) == s.played + Current(s) + Jobs(s.queue) + s.dropped + Tail(s)
    ensures KeepsTheRest(Whole(s), s.played, Captured(s), |Current(s)| + |Jobs(s.queue)|, s.dropped)
  {
    DropMiddle(Whole(s), s.played, Current(s), Jobs(s.queue), s.dropped, Tail(s));
  }

  // ----- when a sentence goes missing ------------------------------------------

  lemma {:induction false} RunsExtend(s: Reply, steps: seq<Step>, step: Step)
    requires Runs(s, steps) && Enabled(After(s, steps), step)
    ensures Runs(s, steps + [step]) && After(s, steps + [step]) == Apply(After(s, steps), step)
    decreases |steps|
  {
    if steps == [] {
      assert [] + [step] == [step];
    } else {
      RunsExtend(Apply(s, steps[0]), steps[1..], step);
      assert (steps + [step])[1..] == steps[1..] + [step];
    }
  }

  /** A run is a shorter run and one more step. */
  lemma {:induction false} RunsSplit(s: Reply, steps: seq<Step>)
    requires Runs(s, steps) && steps != []
    ensures var front, last := steps[..|steps| - 1], steps[|steps| - 1];
      Runs(s, front) && Enabled(After(s, front), last) && After(s, steps) == Apply(After(s, front), last)
    decreases |steps|
  {
    if |steps| > 1 {
      RunsSplit(Apply(s, steps[0]), steps[1..]);
      assert steps[..|steps| - 1][1..] == steps[1..][..|steps| - 2];
    }
  }

  predicate HandsOver(step: Step) { step.Pull? || step.Direct? || step.FallBack? }

  /** Step `i` hands a sentence to the producer while the job queue is full. */
  ghost predicate BlockedAt(eager: bool, steps: seq<Step>, i: nat) {
    i < |steps| && HandsOver(steps[i]) && Runs(Fresh(eager), steps[..i]) && |After(Fresh(eager), steps[..i]).queue| == MAX_JOBS
  }

  predicate StillBlocked(steps: seq<Step>, i: nat, j: nat) {
    forall k :: i < k < j && k < |steps| ==> !steps[k].Unblock? && !steps[k].CancelProducer?
  }

  /** ... and step `j` cancels the producer before it got the sentence into the queue. */
  ghost predicate DropsAt(eager: bool, steps: seq<Step>, i: nat, j: nat) {
    i < j < |steps| && BlockedAt(eager, steps, i) && StillBlocked(steps, i, j) && steps[j].CancelProducer?
  }

  predicate HoldsSentence(s: Reply) { s.producer.Holding? && s.producer.job.Some? }

  lemma HoldStep(s: Reply, step: Step)
    requires Inv(s) && Enabled(s, step)
    ensures HoldsSentence(Apply(s, step)) <==>
      (HoldsSentence(s) && !step.Unblock? && !step.CancelProducer?) || (HandsOver(step) && |s.queue| == MAX_JOBS)
  {
  }

  lemma DropStep(s: Reply, step: Step)
    requires Inv(s) && Enabled(s, step)
    ensures Apply(s, step).dropped != [] <==> s.dropped != [] || (step.CancelProducer? && HoldsSentence(s))
  {
  }

  lemma BlockedStill(eager: bool, front: seq<Step>, last: Step, i: nat)
    requires BlockedAt(eager, front, i)
    ensures BlockedAt(eager, front + [last], i)
    ensures StillBlocked(front, i, |front|) && !last.Unblock? && !last.CancelProducer? ==>
      StillBlocked(front + [last], i, |front| + 1)
    ensures StillBlocked(front, i, |front|) && last.CancelProducer? ==> DropsAt(eager, front + [last], i, |front|)
  {
    assert (front + [last])[..i] == front[..i];
  }

  lemma BlockedNow(eager: bool, front: seq<Step>, last: Step)
    requires Runs(Fresh(eager), front) && HandsOver(last) && |After(Fresh(eager), front).queue| == MAX_JOBS
    ensures BlockedAt(eager, front + [last], |front|) && StillBlocked(front + [last], |front|, |front| + 1)
  {
    assert (front + [last])[..|front|] == front;
  }

  lemma {:induction false} HoldingSince(eager: bool, steps: seq<Step>) returns (i: nat)
    requires Runs(Fresh(eager), steps) && HoldsSentence(After(Fresh(eager), steps))
    ensures BlockedAt(eager, steps, i) && StillBlocked(steps, i, |steps|)
    decreases |steps|
  {
    RunsSplit(Fresh(eager), steps);
    var front, last := steps[..|steps| - 1], steps[|steps| - 1];
    assert steps == front + [last];
    RunsKeep(Fresh(eager), front);
    HoldStep(After(Fresh(eager), front), last);
    if HoldsSentence(After(Fresh(eager), front)) && !last.Unblock? && !last.CancelProducer? {
      i := HoldingSince(eager, front);
      BlockedStill(eager, front, last, i);
    } else {
      i := |front|;
      BlockedNow(eager, front, last);
    }
  }

  lemma {:induction false} HoldingFrom(eager: bool, steps: seq<Step>, i: nat)
    requires Runs(Fresh(eager), steps) && BlockedAt(eager, steps, i) && StillBlocked(steps, i, |steps|)
    ensures HoldsSentence(After(Fresh(eager), steps))
    decreases |steps|
  {
    RunsSplit(Fresh(eager), steps);
    var front, last := steps[..|steps| - 1], steps[|steps| - 1];
    RunsKeep(Fresh(eager), front);
    HoldStep(After(Fresh(eager), front), last);
    if i < |steps| - 1 {
      assert front[..i] == steps[..i];
      HoldingFrom(eager, front, i);
    }
  }

  lemma DropsStill(eager: bool, front: seq<Step>, last: Step, i: nat, j: nat)
    requires DropsAt(eager, front, i, j)
    ensures DropsAt(eager, front + [last], i, j)
  {
    BlockedStill(eager, front, last, i);
  }

  lemma {:induction false} DroppedSince(eager: bool, steps: seq<Step>) returns (i: nat, j: nat)
    requires Runs(Fresh(eager), steps) && After(Fresh(eager), steps).dropped != []
    ensures DropsAt(eager, steps, i, j)
    decreases |steps|
  {
    RunsSplit(Fresh(eager), steps);
    var front, last := steps[..|steps| - 1], steps[|steps| - 1];
    assert steps == front + [last];
    RunsKeep(Fresh(eager), front);
    DropStep(After(Fresh(eager), front), last);
    if After(Fresh(eager), front).dropped != [] {
      i, j := DroppedSince(eager, front);
      DropsStill(eager, front, last, i, j);
    } else {
      i := HoldingSince(eager, front);
      j := |front|;
      BlockedStill(eager, front, last, i);
    }
  }

  lemma {:induction false} DroppedFrom(eager: bool, steps: seq<Step>, i: nat, j: nat)
    requires Runs(Fresh(eager), steps) && DropsAt(eager, steps, i, j)
    ensures After(Fresh(eager), steps).dropped != []
    decreases |steps|
  {
    RunsSplit(Fresh(eager), steps);
    var front, last := steps[..|steps| - 1], steps[|steps| - 1];
    assert front[..i] == steps[..i];
    RunsKeep(Fresh(eager), front);
    DropStep(After(Fresh(eager), front), last);
    if j < |steps| - 1 {
      DroppedFrom(eager, front, i, j);
    } else {
      HoldingFrom(eager, front, i);
    }
  }

  /** A sentence is missing from the remainder exactly if it was handed to the producer while the queue was full and
      the producer was cancelled before it could be queued. */
  lemma DroppedIff(eager: bool, steps: seq<Step>)
    requires Runs(Fresh(eager), steps)
    ensures After(Fresh(eager), steps).dropped != [] <==> exists i, j :: DropsAt(eager, steps, i, j)
  {
    if After(Fresh(eager), steps).dropped != [] {
      var i, j := DroppedSince(eager, steps);
    }
    if i, j :| DropsAt(eager, steps, i, j) {
      DroppedFrom(eager, steps, i, j);
    }
  }

  lemma Next(steps: seq<Step>, s: Reply, step: Step) returns (longer: seq<Step>, n: Reply)
    requires Runs(Fresh(true), steps) && s == After(Fresh(true), steps) && Enabled(s, step)
    ensures Runs(Fresh(true), longer) && n == After(Fresh(true), longer) == Apply(s, step)
  {
    RunsExtend(Fresh(true), steps, step);
    longer := steps + [step];
    n := Apply(s, step);
  }

  lemma FourGenerated(a: Sentence, b: Sentence, c: Sentence, d: Sentence) returns (steps: seq<Step>)
    ensures Runs(Fresh(true), steps) && After(Fresh(true), steps) == Fresh(true).(buffer := [a, b, c, d])
  {
    steps := [];
    var s := Fresh(true);
    steps, s := Next(steps, s, Generate(a));
    steps, s := Next(steps, s, Generate(b));
    steps, s := Next(steps, s, Generate(c));
    steps, s := Next(steps, s, Generate(d));
  }

  lemma QueueFilled(a: Sentence, b: Sentence, c: Sentence, d: Sentence) returns (steps: seq<Step>)
    ensures Runs(Fresh(true), steps)
    ensures After(Fresh(true), steps)
         == Fresh(true).(buffer := [a, b, c, d], replayed := 3, queue := [Some(b), Some(c)], player := Playing(a))
  {
    steps := FourGenerated(a, b, c, d);
    var s := After(Fresh(true), steps);
    steps, s := Next(steps, s, Pull);
    steps, s := Next(steps, s, Pull);
    assert s.queue == [Some(a), Some(b)];
    steps, s := Next(steps, s, Take);
    steps, s := Next(steps, s, Pull);
  }

  /** A run that loses a sentence: of four, the first is cut off, two are queued and the fourth is in the producer's hand. */
  lemma ASentenceIsDropped(a: Sentence, b: Sentence, c: Sentence, d: Sentence) returns (steps: seq<Step>)
    ensures Runs(Fresh(true), steps)
    ensures var s := After(Fresh(true), steps);
      s.player == Done(Some(a), false) && Whole(s) == [a, b, c, d] && s.played == [] && Captured(s) == [a, b, c]
  {
    steps := QueueFilled(a, b, c, d);
    var s := After(Fresh(true), steps);
    steps, s := Next(steps, s, Pull);
    steps, s := Next(steps, s, BargeIn);
    steps, s := Next(steps, s, CancelProducer);
    JobsOfTwo(b, c);
  }

  lemma JobsOfTwo(b: Sentence, c: Sentence)
    ensures Jobs([Some(b), Some(c)]) == [b, c]
  {
    assert [Some(b), Some(c)][1..] == [Some(c)] && [Some(c)][1..] == [];
    assert Jobs([Some(c)]) == [c] + Jobs([]);
  }

  /** A reply played to the end was played whole; the default reply stands in exactly for a blank one. */
  lemma CompletedReplyWasPlayedWhole(s: Reply)
    requires Inv(s) && s.player == Done(None, false)
    ensures s.played == Whole(s)[..|s.played|]
    ensures !s.broken ==> s.generated && s.played == Whole(s)
    ensures !s.broken ==> (s.fallback.Some? <==> Blank(TextOf(s.buffer)))
  {
    WholeIsGivenAndTail(s);
    assert Placed(s) == s.played;
    assert s.played <= s.played + s.buffer[s.replayed..];
  }

  // ----- progress -----------------------------------------------------------

  /** Neither side waits for ever: until the player is done, or the generation still runs, something can move. */
  lemma NeverStuck(s: Reply, defaultReply: Sentence) returns (step: Step)
    requires Inv(s) && !s.player.Done? && s.generated
    ensures Enabled(s, step) && !step.Generate? && !step.Direct?
  {
    if s.player.Playing? {
      step := Finish;
    } else if s.queue != [] {
      step := Take;
    } else if s.producer.Holding? {
      step := Unblock;
    } else if s.replayed < |s.buffer| {
      step := Pull;
    } else if s.fallback.None? && Blank(TextOf(s.buffer)) {
      step := FallBack(defaultReply);
    } else {
      step := Complete;
    }
  }

  function ProducerWork(producer: Producer): nat {
    match producer
    case Idle => 4
    case Holding(job) => if job.None? then 3 else 7
    case Stopped => 0
  }

  /** Steps left once nothing more is generated. */
  function Work(s: Reply): nat
    requires s.replayed <= |s.buffer|
  {
    4 * (|s.buffer| - s.replayed) + (if s.fallback.None? then 4 else 0) + ProducerWork(s.producer)
    + 2 * |s.queue| + (if s.player.Playing? then 1 else 0) + (if s.generated then 0 else 1)
  }

  lemma PutWork(s: Reply, job: Option<Sentence>)
    requires s.replayed <= |s.buffer| && !s.producer.Stopped?
    ensures Work(Put(s, job)) <= Work(s) - ProducerWork(s.producer) + if job.None? then 3 else 7
    ensures s.producer == Holding(job) && |s.queue| < MAX_JOBS ==> Work(Put(s, job)) < Work(s)
  {
  }

  lemma WorkFalls(s: Reply, step: Step)
    requires Inv(s) && Enabled(s, step) && !step.Generate? && !step.Direct?
    ensures Apply(s, step).replayed <= |Apply(s, step).buffer| && Work(Apply(s, step)) < Work(s)
  {
    match step
    case Pull => PutWork(s.(replayed := s.replayed + 1), Some(s.buffer[s.replayed]));
    case FallBack(x) => PutWork(s.(fallback := Some(x)), Some(x));
    case Complete => PutWork(s, None);
    case Break => PutWork(s.(broken := true), None);
    case Unblock => PutWork(s, s.producer.job);
    case _ =>
  }

  /** However the steps interleave, a reply that is no longer generating comes to rest within Work(s) steps. */
  lemma {:induction false} RepliesEnd(s: Reply, steps: seq<Step>)
    requires Inv(s) && Runs(s, steps) && forall i :: 0 <= i < |steps| ==> !steps[i].Generate? && !steps[i].Direct?
    ensures |steps| <= Work(s)
    decreases |steps|
  {
    if steps != [] {
      WorkFalls(s, steps[0]);
      StepKeeps(s, steps[0]);
      RepliesEnd(Apply(s, steps[0]), steps[1..]);
    }
  }

  // ----- the teardown -------------------------------------------------------

  /** The player stopped in the middle of a sentence because the caller cut in. */
  predicate CutOff(player: Player) {
    player.Done? && player.cut.Some? && !player.failed
  }

  function Generated(late: seq<Sentence>): seq<Step> {
    if late == [] then [] else Generated(late[..|late| - 1]) + [Generate(late[|late| - 1])]
  }

  /** A reply after its teardown, but for the draining of the queue: the producer is cancelled, the eager task may
      still append, and is cancelled too. */
  function TornDown(s: Reply, late: seq<Sentence>): Reply {
    s.(producer := Stopped, dropped := Held(s), buffer := s.buffer + late, generated := true)
  }

  lemma {:induction false} GeneratedRuns(s: Reply, late: seq<Sentence>)
    requires late == [] || (s.eager && !s.generated)
    ensures Runs(s, Generated(late)) && After(s, Generated(late)) == s.(buffer := s.buffer + late)
    decreases |late|
  {
    if late != [] {
      var front, last := late[..|late| - 1], late[|late| - 1];
      GeneratedRuns(s, front);
      RunsExtend(s, Generated(front), Generate(last));
      assert s.buffer + front + [last] == s.buffer + late;
    } else {
      assert s.buffer + late == s.buffer;
    }
  }

  /** The teardown is made of protocol steps, so it keeps what they keep. */
  lemma TeardownKeeps(s: Reply, late: seq<Sentence>)
    requires Inv(s) && s.player.Done? && (late != [] ==> s.eager && !s.generated)
    ensures Inv(TornDown(s, late))
  {
    var stopped := if s.producer.Stopped? then s else Apply(s, CancelProducer);
    if !s.producer.Stopped? { StepKeeps(s, CancelProducer); }
    GeneratedRuns(stopped, late);
    RunsKeep(stopped, Generated(late));
    var grown := After(stopped, Generated(late));
    if !grown.generated { StepKeeps(grown, EndGeneration); }
  }

  /** So the remainder theorem holds of what it captures. */
  lemma TeardownCaptures(s: Reply, late: seq<Sentence>)
    requires Inv(s) && s.player.Done? && (late != [] ==> s.eager && !s.generated)
    ensures IsUnplayed(TornDown(s, late), Captured(TornDown(s, late)))
  {
    TeardownKeeps(s, late);
    RemainderIsUnplayed(TornDown(s, late));
  }

  // ----- the objects --------------------------------------------------------

  /** The replay buffer of one candidate, the job queue of its playback and the playback's own variables. */
  class StreamedReply {
    const eager: bool
    var buffer: seq<Sentence>
    var replayedCount: nat
    var eagerDone: bool
    var fallback: Option<Sentence>
    var broken: bool
    var producer: Producer
    var jobQueue: seq<Option<Sentence>>
    var player: Player
    ghost var played: seq<Sentence>
    ghost var dropped: seq<Sentence>

    ghost function View(): Reply
      reads this
    {
      Reply(eager, buffer, replayedCount, eagerDone, fallback, broken, producer, jobQueue, player, played, dropped)
    }

    constructor (eager: bool)
      ensures View() == Fresh(eager)
    {
      this.eager := eager;
      buffer, replayedCount, eagerDone, fallback, broken := [], 0, false, None, false;
      producer, jobQueue, player, played, dropped := Idle, [], Waiting, [], [];
    }

    /** One turn of the eager task's loop. */
    method DrainEager(sentence: Sentence)
      requires Enabled(View(), Generate(sentence))
      modifies this
      ensures View() == Apply(old(View()), Generate(sentence))
    {
      buffer := buffer + [sentence];
    }

    /** Queues a job if there is room; otherwise the producer waits with it. */
    method PutJob(job: Option<Sentence>)
      requires |jobQueue| <= MAX_JOBS
      modifies this
      ensures View() == Put(old(View()), job)
    {
      if |jobQueue| < MAX_JOBS {
        jobQueue := jobQueue + [job];
        producer := if job.None? then Stopped else Idle;
      } else {
        producer := Holding(job);
      }
    }

    /** One turn of the producer's loop over the replayed buffer. */
    method ReplayNext()
      requires Inv(View()) && Enabled(View(), Pull)
      modifies this
      ensures View() == Apply(old(View()), Pull) && Inv(View())
    {
      StepKeeps(View(), Pull);
      var sentence := buffer[replayedCount];
      replayedCount := replayedCount + 1;
      PutJob(Some(sentence));
    }

    /** Without an eager task the producer's loop drives the generation itself. */
    method ProduceDirect(sentence: Sentence)
      requires Inv(View()) && Enabled(View(), Direct(sentence))
      modifies this
      ensures View() == Apply(old(View()), Direct(sentence)) && Inv(View())
    {
      StepKeeps(View(), Direct(sentence));
      buffer, replayedCount := buffer + [sentence], replayedCount + 1;
      PutJob(Some(sentence));
    }

    /** Nothing readable was generated: the default reply. */
    method ProduceDefault(sentence: Sentence)
      requires Inv(View()) && Enabled(View(), FallBack(sentence))
      modifies this
      ensures View() == Apply(old(View()), FallBack(sentence)) && Inv(View())
    {
      StepKeeps(View(), FallBack(sentence));
      fallback := Some(sentence);
      PutJob(Some(sentence));
    }

    /** The producer's loop is over, or its generator raised: the sentinel. */
    method SendSentinel(raised: bool)
      requires Inv(View()) && Enabled(View(), if raised then Break else Complete)
      modifies this
      ensures View() == Apply(old(View()), if raised then Break else Complete) && Inv(View())
    {
      StepKeeps(View(), if raised then Break else Complete);
      if raised { broken := true; }
      PutJob(None);
    }

    /** The queue has room again for the job the producer waits with. */
    method QueueHeld()
      requires Inv(View()) && Enabled(View(), Unblock)
      modifies this
      ensures View() == Apply(old(View()), Unblock) && Inv(View())
    {
      StepKeeps(View(), Unblock);
      PutJob(producer.job);
    }

    /** The generation is finished, failed or was cancelled. */
    method EndEager()
      requires Inv(View()) && Enabled(View(), EndGeneration)
      modifies this
      ensures View() == Apply(old(View()), EndGeneration) && Inv(View())
    {
      StepKeeps(View(), EndGeneration);
      eagerDone := true;
    }

    /** The player takes the next job; the sentinel ends its loop. */
    method TakeNext()
      requires Inv(View()) && Enabled(View(), Take)
      modifies this`jobQueue, this`player
      ensures View() == Apply(old(View()), Take) && Inv(View())
    {
      StepKeeps(View(), Take);
      var job := jobQueue[0];
      jobQueue := jobQueue[1..];
      player := if job.None? then Done(None, false) else Playing(job.value);
    }

    /** The job taken is played to its end, cut off by the caller, or fails. */
    method PlayCurrent(cut: bool, fails: bool)
      requires Inv(View()) && player.Playing?
      modifies this`player, this`played
      ensures View() == Apply(old(View()), if fails then Fail else if cut then BargeIn else Finish) && Inv(View())
    {
      StepKeeps(View(), if fails then Fail else if cut then BargeIn else Finish);
      if fails || cut {
        player := Done(Some(player.sentence), fails);
      } else {
        played := played + [player.sentence];
        player := Waiting;
      }
    }

    /** Generated and not yet replayed. */
    function BufferRemainder(): seq<Sentence>
      requires replayedCount <= |buffer|
      reads this
    {
      buffer[replayedCount..]
    }

    /** Empties the job queue, keeping the sentences in it if they are wanted. */
    method DrainQueue(capture: bool) returns (texts: seq<Sentence>)
      modifies this`jobQueue
      ensures jobQueue == [] && texts == if capture then Jobs(old(jobQueue)) else []
    {
      texts := [];
      while jobQueue != []
        invariant capture ==> texts + Jobs(jobQueue) == Jobs(old(jobQueue))
        invariant !capture ==> texts == []
        decreases |jobQueue|
      {
        var job := jobQueue[0];
        if capture && job.Some? {
          assert texts + (SomeSeq(job) + Jobs(jobQueue[1..])) == texts + [job.value] + Jobs(jobQueue[1..]);
          texts := texts + [job.value];
        }
        jobQueue := jobQueue[1..];
      }
    }

    /** The teardown of a playback: stops the producer, drains the queue, adds the buffer's tail, stops the
        generation. `late` is what the eager task still appends while the queue is being drained. */
    method Teardown(isRestructure: bool, late: seq<Sentence>) returns (remainder: seq<Sentence>)
      requires replayedCount <= |buffer| && player.Done? && (late != [] ==> eager && !eagerDone)
      modifies this`producer, this`dropped, this`jobQueue, this`buffer, this`eagerDone
      ensures View() == TornDown(old(View()), late).(queue := [])
      ensures remainder == if CutOff(player) && !isRestructure then Captured(TornDown(old(View()), late)) else []
      // the remainder of a cut reply is what was not played, but for the sentence in the producer's hand
      ensures Inv(old(View())) && CutOff(player) && !isRestructure ==> IsUnplayed(TornDown(old(View()), late), remainder)
    {
      if Inv(View()) {
        TeardownCaptures(View(), late);
      }
      var capture := CutOff(player) && !isRestructure;
      remainder := if capture then [player.cut.value] else [];
      dropped := Held(View());
      producer := Stopped;
      var queued := DrainQueue(capture);
      buffer := buffer + late;
      remainder := remainder + queued;
      if capture && eager {
        remainder := remainder + BufferRemainder();
      }
      eagerDone := true;
    }
  }
}
