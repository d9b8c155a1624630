/** The outbound queue of one edge stream: sends, a close that pushes a sentinel if there is room, and the reader. */
module EdgeOutbound {
  import opened Text

  const CAPACITY := 64

  datatype Message = Message(id: int)

  /** A queue entry of `None` is the close sentinel. `waiting` are the sends blocked on the full queue, in no
      particular order: one that is woken too late has to wait again behind the others. `log` is everything ever
      queued, of which the outbound iterator has got the first `taken`; `room` says that the sentinel went in, at
      `mark`. */
  datatype Line = Line(
    queue: seq<Option<Message>>,
    waiting: seq<Message>,
    closed: bool,
    ended: bool,
    log: seq<Option<Message>>,
    taken: nat,
    room: bool,
    mark: nat)

  const FRESH := Line([], [], false, false, [], 0, false, 0)

  datatype Step = Send(message: Message) | Wake(index: nat) | GiveUp(index: nat) | Close | Get

  predicate Enabled(s: Line, step: Step) {
    match step
    case Send(_) => !s.closed
    case Wake(i) => i < |s.waiting| && |s.queue| < CAPACITY
    case GiveUp(i) => i < |s.waiting|
    case Close => true
    case Get => !s.ended && s.queue != []
  }

  function Queue(s: Line, item: Option<Message>): Line {
    s.(queue := s.queue + [item], log := s.log + [item])
  }

  function Without(waiting: seq<Message>, i: nat): seq<Message>
    requires i < |waiting|
  {
    waiting[..i] + waiting[i + 1..]
  }

  function Apply(s: Line, step: Step): Line
    requires Enabled(s, step)
  {
    match step
    case Send(m) => if |s.queue| < CAPACITY then Queue(s, Some(m)) else s.(waiting := s.waiting + [m])
    case Wake(i) => Queue(s.(waiting := Without(s.waiting, i)), Some(s.waiting[i]))
    case GiveUp(i) => s.(waiting := Without(s.waiting, i))
    case Close =>
      if s.closed then s
      else if |s.queue| < CAPACITY then Queue(s.(closed := true, room := true, mark := |s.log|), None)
      else s.(closed := true)
    case Get => s.(queue := s.queue[1..], taken := s.taken + 1, ended := s.queue[0].None?)
  }

  ghost predicate Inv(s: Line) {
    && s.taken <= |s.log| && s.queue == s.log[s.taken..] && |s.queue| <= CAPACITY
    && (s.room ==> s.closed && s.mark < |s.log|)
    && (forall i :: 0 <= i < |s.log| ==> (s.log[i].None? <==> s.room && i == s.mark))
    && (s.ended <==> s.room && s.mark < s.taken)
    && (s.ended ==> s.taken == s.mark + 1)
  }

  lemma StepKeeps(s: Line, step: Step)
    requires Inv(s) && Enabled(s, step)
    ensures Inv(Apply(s, step))
  {
    if step.Get? { assert s.queue[0] == s.log[s.taken]; }
  }

  predicate Runs(s: Line, steps: seq<Step>)
    decreases |steps|
  {
    steps == [] || (Enabled(s, steps[0]) && Runs(Apply(s, steps[0]), steps[1..]))
  }

  function After(s: Line, steps: seq<Step>): Line
    requires Runs(s, steps)
    decreases |steps|
  {
    if steps == [] then s else After(Apply(s, steps[0]), steps[1..])
  }

  /** Once closed, whether the sentinel went in is settled. */
  lemma {:induction false} RunsKeep(s: Line, steps: seq<Step>)
    requires Inv(s) && Runs(s, steps)
    ensures Inv(After(s, steps))
    ensures s.closed ==> After(s, steps).closed && After(s, steps).room == s.room && After(s, steps).mark == s.mark
    ensures s.log <= After(s, steps).log && s.taken <= After(s, steps).taken
    decreases |steps|
  {
    if steps != [] {
      StepKeeps(s, steps[0]);
      RunsKeep(Apply(s, steps[0]), steps[1..]);
    }
  }

  /** What the iterator has yielded. */
  function Delivered(s: Line): seq<Option<Message>>
    requires s.taken <= |s.log|
  {
    if s.ended && s.taken > 0 then s.log[..s.taken - 1] else s.log[..s.taken]
  }

  /** The iterator yields real messages only, in the order they were queued; when it ends it has yielded exactly
      those queued before the close. */
  lemma DeliversInOrder(steps: seq<Step>)
    requires Runs(FRESH, steps)
    ensures var s := After(FRESH, steps); s.taken <= |s.log| && Delivered(s) <= s.log
    ensures var s := After(FRESH, steps); s.taken <= |s.log| && None !in Delivered(s)
    ensures var s := After(FRESH, steps); s.ended ==> s.mark <= |s.log| && Delivered(s) == s.log[..s.mark]
  {
    RunsKeep(FRESH, steps);
  }

  /** How often the iterator asks in a run. */
  function Gets(steps: seq<Step>): nat {
    if steps == [] then 0 else (if steps[0].Get? then 1 else 0) + Gets(steps[1..])
  }

  lemma {:induction false} EachGetTakesOne(s: Line, steps: seq<Step>)
    requires Runs(s, steps)
    ensures After(s, steps).taken == s.taken + Gets(steps)
    decreases |steps|
  {
    if steps != [] { EachGetTakesOne(Apply(s, steps[0]), steps[1..]); }
  }

  /** After its first close the outbound iterator ends exactly if the queue had room for the sentinel and it has got
      everything queued before and the sentinel; until then it never waits in vain. Without room no run ends it. */
  lemma EndsIffRoomAtClose(s: Line, steps: seq<Step>)
    requires Inv(s) && !s.closed && Runs(Apply(s, Close), steps)
    ensures After(Apply(s, Close), steps).ended <==> |s.queue| < CAPACITY && Gets(steps) > |s.queue|
    ensures |s.queue| < CAPACITY && Gets(steps) <= |s.queue| ==> Enabled(After(Apply(s, Close), steps), Get)
  {
    var n := Apply(s, Close);
    StepKeeps(s, Close);
    RunsKeep(n, steps);
    EachGetTakesOne(n, steps);
  }

  // ----- the stream object --------------------------------------------------

  datatype SendResult = Accepted | Blocked | NotConnected

  class ServerStream {
    var outbound: seq<Option<Message>>
    var putters: seq<Message>
    var closed: bool
    var ended: bool
    ghost var log: seq<Option<Message>>
    ghost var taken: nat
    ghost var room: bool
    ghost var mark: nat

    ghost function View(): Line
      reads this
    {
      Line(outbound, putters, closed, ended, log, taken, room, mark)
    }

    constructor ()
      ensures View() == FRESH && Inv(View())
    {
      outbound, putters, closed, ended, log, taken, room, mark := [], [], false, false, [], 0, false, 0;
    }

    /** A blocked send goes on waiting for room, or gives up after its timeout. */
    method Send(message: Message) returns (r: SendResult)
      requires Inv(View())
      modifies this
      ensures Inv(View())
      ensures r == if old(closed) then NotConnected else if |old(outbound)| < CAPACITY then Accepted else Blocked
      ensures View() == if old(closed) then old(View()) else Apply(old(View()), Step.Send(message))
    {
      if closed {
        return NotConnected;
      }
      StepKeeps(View(), Step.Send(message));
      if |outbound| < CAPACITY {
        outbound, log := outbound + [Some(message)], log + [Some(message)];
        r := Accepted;
      } else {
        putters := putters + [message];
        r := Blocked;
      }
    }

    /** A send that was blocked gets its place; one that comes through after the close still does. */
    method Wake(i: nat)
      requires Inv(View()) && Enabled(View(), Step.Wake(i))
      modifies this
      ensures View() == Apply(old(View()), Step.Wake(i)) && Inv(View())
    {
      StepKeeps(View(), Step.Wake(i));
      outbound, log := outbound + [Some(putters[i])], log + [Some(putters[i])];
      putters := putters[..i] + putters[i + 1..];
    }

    /** A blocked send times out. */
    method GiveUp(i: nat)
      requires Inv(View()) && Enabled(View(), Step.GiveUp(i))
      modifies this
      ensures View() == Apply(old(View()), Step.GiveUp(i)) && Inv(View())
    {
      StepKeeps(View(), Step.GiveUp(i));
      putters := putters[..i] + putters[i + 1..];
    }

    /** Only the first close pushes a sentinel, and only if there is room. */
    method Close()
      requires Inv(View())
      modifies this
      ensures View() == Apply(old(View()), Step.Close) && Inv(View())
    {
      StepKeeps(View(), Step.Close);
      if closed {
        return;
      }
      closed := true;
      if |outbound| < CAPACITY {
        room, mark := true, |log|;
        outbound, log := outbound + [None], log + [None];
      }
    }

    /** One turn of the outbound iterator: a message, or None where it ends. */
    method Next() returns (message: Option<Message>)
      requires Inv(View()) && Enabled(View(), Get)
      modifies this
      ensures View() == Apply(old(View()), Get) && Inv(View())
      ensures message.None? <==> ended
      ensures message.Some? ==> taken == old(taken) + 1 <= |log| && log[old(taken)] == message
    {
      StepKeeps(View(), Get);
      message := outbound[0];
      outbound, taken, ended := outbound[1..], taken + 1, message.None?;
    }
  }
}
