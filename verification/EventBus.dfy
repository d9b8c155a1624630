/** The two-lane event bus of one call. */
module EventBus {
  import opened Text

  datatype Kind = Kind(name: string)
  datatype Handler = Handler(id: int)

  /** A posted event, numbered by its post. */
  datatype Item = Item(number: nat, kind: Kind)

  /** One call of one handler. */
  datatype Delivery = Delivery(item: Item, handler: Handler)

  /** An event taken from the queue with the handlers subscribed to it at that moment. */
  datatype Batch = Batch(item: Item, handlers: seq<Handler>)

  function Calls(item: Item, handlers: seq<Handler>): seq<Delivery> {
    if handlers == [] then [] else [Delivery(item, handlers[0])] + Calls(item, handlers[1..])
  }

  function Deliveries(batches: seq<Batch>): seq<Delivery> {
    if batches == [] then [] else Calls(batches[0].item, batches[0].handlers) + Deliveries(batches[1..])
  }

  function Items(batches: seq<Batch>): seq<Item> {
    if batches == [] then [] else [batches[0].item] + Items(batches[1..])
  }

  // ----- the lossless lane --------------------------------------------------

  datatype Work = Idle | Delivering(item: Item, rest: seq<Handler>)

  datatype Closing = Open | Draining(left: nat) | Closed

  /** `delivered` logs the handler calls; `lost` are those a cancelled dispatcher never made. */
  datatype Bus = Bus(
    handlers: map<Kind, seq<Handler>>,
    queue: seq<Item>,
    started: bool,
    dispatcher: Work,
    closer: Work,
    closing: Closing,
    posted: seq<Item>,
    fetched: seq<Batch>,
    delivered: seq<Delivery>,
    lost: seq<Delivery>)

  const FRESH := Bus(map[], [], false, Idle, Idle, Open, [], [], [], [])

  datatype Step =
    | Subscribe(kind: Kind, handler: Handler)
    | Unsubscribe(kind: Kind, handler: Handler)
    | Post(kind: Kind)
    | Start
    | Fetch            // the dispatcher takes the next event
    | Handle           // ... calls its next handler, which may raise
    | Finish           // ... is through
    | BeginClose
    | DrainFetch       // the closing task takes the next event
    | DrainHandle
    | DrainFinish
    | Cancel           // the queue is drained: the dispatcher is cancelled

  function Subscribed(handlers: map<Kind, seq<Handler>>, kind: Kind): seq<Handler> {
    if kind in handlers then handlers[kind] else []
  }

  function Without(hs: seq<Handler>, h: Handler): seq<Handler> {
    if hs == [] then [] else if hs[0] == h then hs[1..] else [hs[0]] + Without(hs[1..], h)
  }

  /** If no handler suspends, a delivery once begun runs to its end before any other task moves; the handlers
      themselves may still post and subscribe. */
  predicate Enabled(suspending: bool, s: Bus, step: Step) {
    match step
    case Subscribe(_, _) => true
    case Unsubscribe(_, _) => true
    case Post(_) => true
    case Start => true
    case Fetch =>
      s.started && s.dispatcher.Idle? && !s.closing.Closed? && s.queue != [] && (suspending || s.closer.Idle?)
    case Handle => s.dispatcher.Delivering? && s.dispatcher.rest != []
    case Finish => s.dispatcher.Delivering? && s.dispatcher.rest == []
    case BeginClose => s.closing.Open? && (suspending || s.dispatcher.Idle?)
    case DrainFetch =>
      && s.closing.Draining? && s.closing.left > 0 && s.closer.Idle? && s.queue != []
      && (suspending || s.dispatcher.Idle?)
    case DrainHandle => s.closer.Delivering? && s.closer.rest != []
    case DrainFinish => s.closer.Delivering? && s.closer.rest == []
    case Cancel =>
      && s.closing.Draining? && s.closer.Idle? && (s.closing.left == 0 || s.queue == [])
      && (suspending || s.dispatcher.Idle?)
  }

  function Take(s: Bus): Batch
    requires s.queue != []
  {
    Batch(s.queue[0], Subscribed(s.handlers, s.queue[0].kind))
  }

  function Rest(w: Work): seq<Delivery> {
    if w.Idle? then [] else Calls(w.item, w.rest)
  }

  function Apply(suspending: bool, s: Bus, step: Step): Bus
    requires Enabled(suspending, s, step)
  {
    match step
    case Subscribe(k, h) => s.(handlers := s.handlers[k := Subscribed(s.handlers, k) + [h]])
    case Unsubscribe(k, h) =>
      if k in s.handlers then s.(handlers := s.handlers[k := Without(s.handlers[k], h)]) else s
    case Post(k) =>
      if !s.closing.Open? then s
      else s.(queue := s.queue + [Item(|s.posted|, k)], posted := s.posted + [Item(|s.posted|, k)])
    case Start => s.(started := true)
    case Fetch =>
      s.(queue := s.queue[1..], fetched := s.fetched + [Take(s)], dispatcher := Delivering(Take(s).item, Take(s).handlers))
    case Handle =>
      s.(delivered := s.delivered + [Delivery(s.dispatcher.item, s.dispatcher.rest[0])],
         dispatcher := Delivering(s.dispatcher.item, s.dispatcher.rest[1..]))
    case Finish => s.(dispatcher := Idle)
    case BeginClose => s.(closing := Draining(|s.queue|))
    case DrainFetch =>
      s.(queue := s.queue[1..], fetched := s.fetched + [Take(s)], closer := Delivering(Take(s).item, Take(s).handlers),
         closing := Draining(s.closing.left - 1))
    case DrainHandle =>
      s.(delivered := s.delivered + [Delivery(s.closer.item, s.closer.rest[0])],
         closer := Delivering(s.closer.item, s.closer.rest[1..]))
    case DrainFinish => s.(closer := Idle)
    case Cancel => s.(closing := Closed, lost := Rest(s.dispatcher), dispatcher := Idle)
  }

  // ----- what every step keeps ----------------------------------------------

  /** The events taken and the queue are the posts, in order. */
  predicate Fifo(s: Bus) {
    s.posted == Items(s.fetched) + s.queue && forall i :: 0 <= i < |s.posted| ==> s.posted[i].number == i
  }

  /** Every call due was made once, is still to be made by one of the two tasks, or was lost. */
  predicate Accounted(s: Bus) {
    multiset(Deliveries(s.fetched)) ==
      multiset(s.delivered) + multiset(Rest(s.dispatcher)) + multiset(Rest(s.closer)) + multiset(s.lost)
  }

  predicate Phased(s: Bus) {
    && (s.lost != [] ==> s.closing.Closed?)
    && (s.closing.Open? ==> s.closer.Idle?)
    && (s.closing.Draining? ==> |s.queue| <= s.closing.left)
    && (s.closing.Closed? ==> s.queue == [] && s.dispatcher.Idle? && s.closer.Idle?)
  }

  /** Without suspension at most one task is delivering, and the calls are made in post order. */
  predicate Ordered(s: Bus) {
    && s.lost == [] && (s.dispatcher.Idle? || s.closer.Idle?)
    && Deliveries(s.fetched) == s.delivered + Rest(s.dispatcher) + Rest(s.closer)
  }

  predicate Inv(suspending: bool, s: Bus) {
    Fifo(s) && Accounted(s) && Phased(s) && (!suspending ==> Ordered(s))
  }

  lemma {:induction false} ItemsAppend(batches: seq<Batch>, b: Batch)
    ensures Items(batches + [b]) == Items(batches) + [b.item]
  {
    if batches != [] {
      assert (batches + [b])[1..] == batches[1..] + [b];
      ItemsAppend(batches[1..], b);
    }
  }

  lemma {:induction false} DeliveriesAppend(batches: seq<Batch>, b: Batch)
    ensures Deliveries(batches + [b]) == Deliveries(batches) + Calls(b.item, b.handlers)
  {
    if batches != [] {
      assert (batches + [b])[1..] == batches[1..] + [b];
      DeliveriesAppend(batches[1..], b);
    } else {
      assert batches + [b] == [b] && Deliveries(([b])[1..]) == [];
    }
  }

  lemma StepPhased(suspending: bool, s: Bus, step: Step)
    requires Phased(s) && Enabled(suspending, s, step)
    ensures Phased(Apply(suspending, s, step))
  {
  }

  lemma TakeFirst<T>(p: seq<T>, a: seq<T>, q: seq<T>)
    requires p == a + q && q != []
    ensures p == a + [q[0]] + q[1..]
  {
  }

  lemma AddLast<T>(p: seq<T>, a: seq<T>, q: seq<T>, x: T)
    requires p == a + q
    ensures p + [x] == a + (q + [x])
  {
  }

  lemma StepFifo(suspending: bool, s: Bus, step: Step)
    requires Fifo(s) && Enabled(suspending, s, step)
    ensures Fifo(Apply(suspending, s, step))
  {
    if step.Fetch? || step.DrainFetch? {
      ItemsAppend(s.fetched, Take(s));
      TakeFirst(s.posted, Items(s.fetched), s.queue);
    } else if step.Post? {
      AddLast(s.posted, Items(s.fetched), s.queue, Item(|s.posted|, step.kind));
    }
  }

  lemma CountOne<T>(done: seq<T>, x: T, rest: seq<T>)
    ensures multiset(done) + multiset([x] + rest) == multiset(done + [x]) + multiset(rest)
  {
  }

  lemma CountBatch<T>(all: seq<T>, batch: seq<T>, done: seq<T>, idle: seq<T>, other: seq<T>, lost: seq<T>)
    requires idle == []
    ensures multiset(all) == multiset(done) + multiset(idle) + multiset(other) + multiset(lost) ==>
      multiset(all + batch) == multiset(done) + multiset(batch) + multiset(other) + multiset(lost)
    ensures multiset(all) == multiset(done) + multiset(other) + multiset(idle) + multiset(lost) ==>
      multiset(all + batch) == multiset(done) + multiset(other) + multiset(batch) + multiset(lost)
  {
  }

  lemma FetchAccounted(suspending: bool, s: Bus)
    requires Accounted(s) && Enabled(suspending, s, Fetch)
    ensures Accounted(Apply(suspending, s, Fetch))
  {
    var b, n := Take(s), Apply(suspending, s, Fetch);
    DeliveriesAppend(s.fetched, b);
    CountBatch(Deliveries(s.fetched), Rest(n.dispatcher), s.delivered, Rest(s.dispatcher), Rest(s.closer), s.lost);
    assert Deliveries(n.fetched) == Deliveries(s.fetched) + Rest(n.dispatcher);
  }

  lemma DrainFetchAccounted(suspending: bool, s: Bus)
    requires Accounted(s) && Enabled(suspending, s, DrainFetch)
    ensures Accounted(Apply(suspending, s, DrainFetch))
  {
    var b, n := Take(s), Apply(suspending, s, DrainFetch);
    DeliveriesAppend(s.fetched, b);
    CountBatch(Deliveries(s.fetched), Rest(n.closer), s.delivered, Rest(s.closer), Rest(s.dispatcher), s.lost);
    assert Deliveries(n.fetched) == Deliveries(s.fetched) + Rest(n.closer);
  }

  lemma HandleAccounted(suspending: bool, s: Bus, step: Step)
    requires Accounted(s) && Enabled(suspending, s, step) && (step.Handle? || step.DrainHandle?)
    ensures Accounted(Apply(suspending, s, step))
  {
    var w := if step.Handle? then s.dispatcher else s.closer;
    CountOne(s.delivered, Delivery(w.item, w.rest[0]), Calls(w.item, w.rest[1..]));
  }

  lemma StepAccounted(suspending: bool, s: Bus, step: Step)
    requires Accounted(s) && Phased(s) && Enabled(suspending, s, step)
    ensures Accounted(Apply(suspending, s, step))
  {
    match step
    case Fetch => FetchAccounted(suspending, s);
    case DrainFetch => DrainFetchAccounted(suspending, s);
    case Handle => HandleAccounted(suspending, s, step);
    case DrainHandle => HandleAccounted(suspending, s, step);
    case _ =>
  }

  lemma ExtendThird<T>(a: seq<T>, b: seq<T>, c: seq<T>, x: seq<T>)
    requires b == [] && c == []
    ensures a + b + c + x == a + x + c
    ensures a + b + c + x == a + b + x
  {
  }

  lemma MoveOne<T>(a: seq<T>, x: T, r: seq<T>, e: seq<T>)
    requires e == []
    ensures a + ([x] + r) + e == (a + [x]) + r + e
    ensures a + e + ([x] + r) == (a + [x]) + e + r
  {
  }

  lemma FetchOrdered(s: Bus, step: Step)
    requires Ordered(s) && Phased(s) && Enabled(false, s, step) && (step.Fetch? || step.DrainFetch?)
    ensures Ordered(Apply(false, s, step))
  {
    var b := Take(s);
    DeliveriesAppend(s.fetched, b);
    ExtendThird(s.delivered, Rest(s.dispatcher), Rest(s.closer), Calls(b.item, b.handlers));
  }

  lemma HandleOrdered(s: Bus, step: Step)
    requires Ordered(s) && Enabled(false, s, step) && (step.Handle? || step.DrainHandle?)
    ensures Ordered(Apply(false, s, step))
  {
    var w := if step.Handle? then s.dispatcher else s.closer;
    var other := if step.Handle? then s.closer else s.dispatcher;
    MoveOne(s.delivered, Delivery(w.item, w.rest[0]), Calls(w.item, w.rest[1..]), Rest(other));
  }

  lemma StepOrdered(s: Bus, step: Step)
    requires Ordered(s) && Phased(s) && Enabled(false, s, step)
    ensures Ordered(Apply(false, s, step))
  {
    match step
    case Fetch => FetchOrdered(s, step);
    case DrainFetch => FetchOrdered(s, step);
    case Handle => HandleOrdered(s, step);
    case DrainHandle => HandleOrdered(s, step);
    case _ =>
  }

  lemma StepKeeps(suspending: bool, s: Bus, step: Step)
    requires Inv(suspending, s) && Enabled(suspending, s, step)
    ensures Inv(suspending, Apply(suspending, s, step))
  {
    StepPhased(suspending, s, step);
    StepFifo(suspending, s, step);
    StepAccounted(suspending, s, step);
    if !suspending { StepOrdered(s, step); }
  }

  // ----- every run ----------------------------------------------------------

  predicate Runs(suspending: bool, s: Bus, steps: seq<Step>)
    decreases |steps|
  {
    steps == [] || (Enabled(suspending, s, steps[0]) && Runs(suspending, Apply(suspending, s, steps[0]), steps[1..]))
  }

  function After(suspending: bool, s: Bus, steps: seq<Step>): Bus
    requires Runs(suspending, s, steps)
    decreases |steps|
  {
    if steps == [] then s else After(suspending, Apply(suspending, s, steps[0]), steps[1..])
  }

  lemma {:induction false} RunsKeep(suspending: bool, s: Bus, steps: seq<Step>)
    requires Inv(suspending, s) && Runs(suspending, s, steps)
    ensures Inv(suspending, After(suspending, s, steps))
    decreases |steps|
  {
    if steps != [] {
      StepKeeps(suspending, s, steps[0]);
      RunsKeep(suspending, Apply(suspending, s, steps[0]), steps[1..]);
    }
  }

  /** With handlers that do not suspend, a bus that has closed has delivered every event posted before, started or
      not, exactly once and in post order to every handler subscribed when its turn came. */
  lemma ClosedBusDeliveredEverything(steps: seq<Step>)
    requires Runs(false, FRESH, steps) && After(false, FRESH, steps).closing.Closed?
    ensures var s := After(false, FRESH, steps); Items(s.fetched) == s.posted && s.delivered == Deliveries(s.fetched)
  {
    RunsKeep(false, FRESH, steps);
    var s := After(false, FRESH, steps);
    assert s.delivered + Rest(s.dispatcher) + Rest(s.closer) == s.delivered;
  }

  /** With handlers that may suspend every event is still taken, but the closing loses calls exactly if it finds the
      dispatcher in the middle of a delivery. */
  lemma CloseCompletesIffIdle(steps: seq<Step>)
    requires Runs(true, FRESH, steps) && Enabled(true, After(true, FRESH, steps), Cancel)
    ensures var n := Apply(true, After(true, FRESH, steps), Cancel); Items(n.fetched) == n.posted
    ensures var s := After(true, FRESH, steps); var n := Apply(true, s, Cancel);
      multiset(n.delivered) == multiset(Deliveries(n.fetched)) <==> Rest(s.dispatcher) == []
  {
    RunsKeep(true, FRESH, steps);
    var s := After(true, FRESH, steps);
    StepKeeps(true, s, Cancel);
    var n := Apply(true, s, Cancel);
    NothingMissingIff(multiset(Deliveries(n.fetched)), n.delivered, n.lost);
  }

  lemma NothingMissingIff<T>(all: multiset<T>, made: seq<T>, missing: seq<T>)
    requires all == multiset(made) + multiset(missing)
    ensures multiset(made) == all <==> missing == []
  {
    if missing != [] {
      assert missing[0] in multiset(missing);
    }
  }

  lemma {:induction false} RunsExtend(suspending: bool, s: Bus, steps: seq<Step>, step: Step)
    requires Runs(suspending, s, steps) && Enabled(suspending, After(suspending, s, steps), step)
    ensures Runs(suspending, s, steps + [step])
    ensures After(suspending, s, steps + [step]) == Apply(suspending, After(suspending, s, steps), step)
    decreases |steps|
  {
    if steps == [] {
      assert [] + [step] == [step];
    } else {
      RunsExtend(suspending, Apply(suspending, s, steps[0]), steps[1..], step);
      assert (steps + [step])[1..] == steps[1..] + [step];
    }
  }

  lemma Next(steps: seq<Step>, s: Bus, step: Step) returns (longer: seq<Step>, n: Bus)
    requires Runs(true, FRESH, steps) && s == After(true, FRESH, steps) && Enabled(true, s, step)
    ensures Runs(true, FRESH, longer) && n == After(true, FRESH, longer) == Apply(true, s, step)
  {
    RunsExtend(true, FRESH, steps, step);
    longer := steps + [step];
    n := Apply(true, s, step);
  }

  /** A run in which the second of two handlers is never called, although the event was posted before the close. */
  lemma SuspendedDeliveryIsLost(k: Kind, g: Handler, h: Handler) returns (steps: seq<Step>)
    ensures Runs(true, FRESH, steps) && After(true, FRESH, steps).closing.Closed?
    ensures var s := After(true, FRESH, steps); s.fetched == [Batch(Item(0, k), [g, h])] && s.delivered == [Delivery(Item(0, k), g)]
  {
    steps := [];
    var s := FRESH;
    steps, s := Next(steps, s, Subscribe(k, g));
    steps, s := Next(steps, s, Subscribe(k, h));
    assert Subscribed(s.handlers, k) == [g, h];
    steps, s := Next(steps, s, Start);
    steps, s := Next(steps, s, Post(k));
    steps, s := Next(steps, s, Fetch);
    steps, s := Next(steps, s, Handle);
    steps, s := Next(steps, s, BeginClose);
    steps, s := Next(steps, s, Cancel);
  }

  // ----- who is called ------------------------------------------------------

  /** How often a handler is subscribed to a kind. */
  function Subscriptions(handlers: map<Kind, seq<Handler>>, k: Kind, h: Handler): nat {
    multiset(Subscribed(handlers, k))[h]
  }

  lemma {:induction false} WithoutOther(hs: seq<Handler>, g: Handler, h: Handler)
    requires g != h
    ensures multiset(Without(hs, g))[h] == multiset(hs)[h]
  {
    if hs != [] {
      assert hs == [hs[0]] + hs[1..];
      if hs[0] != g { WithoutOther(hs[1..], g, h); }
    }
  }

  /** The step leaves this subscription alone. */
  predicate LeavesAlone(step: Step, k: Kind, h: Handler) {
    step != Subscribe(k, h) && step != Unsubscribe(k, h)
  }

  lemma SubscriptionsStay(suspending: bool, s: Bus, step: Step, k: Kind, h: Handler)
    requires Enabled(suspending, s, step) && LeavesAlone(step, k, h)
    ensures Subscriptions(Apply(suspending, s, step).handlers, k, h) == Subscriptions(s.handlers, k, h)
  {
    if step.Unsubscribe? && step.kind == k { WithoutOther(Subscribed(s.handlers, k), step.handler, h); }
  }

  /** While a subscription is left alone, every event of its kind is taken with it. */
  lemma {:induction false} TakenWith(suspending: bool, s: Bus, steps: seq<Step>, k: Kind, h: Handler)
    requires Runs(suspending, s, steps) && forall i :: 0 <= i < |steps| ==> LeavesAlone(steps[i], k, h)
    ensures s.fetched <= After(suspending, s, steps).fetched
    ensures forall i :: |s.fetched| <= i < |After(suspending, s, steps).fetched| ==>
      var b := After(suspending, s, steps).fetched[i];
      b.item.kind == k ==> multiset(b.handlers)[h] == Subscriptions(s.handlers, k, h)
    decreases |steps|
  {
    if steps != [] {
      SubscriptionsStay(suspending, s, steps[0], k, h);
      TakenWith(suspending, Apply(suspending, s, steps[0]), steps[1..], k, h);
    }
  }

  lemma {:induction false} CallsOf(item: Item, hs: seq<Handler>, d: Delivery)
    ensures multiset(Calls(item, hs))[d] == if d.item == item then multiset(hs)[d.handler] else 0
  {
    if hs != [] {
      CallsOf(item, hs[1..], d);
      assert hs == [hs[0]] + hs[1..];
    }
  }

  lemma {:induction false} ItemsAt(batches: seq<Batch>, i: nat)
    requires i < |batches|
    ensures |Items(batches)| == |batches| && Items(batches)[i] == batches[i].item
  {
    if |batches| > 1 { ItemsAt(batches[1..], if i == 0 then 0 else i - 1); }
  }

  /** The calls an event is owed are those of its own batch. */
  lemma {:induction false} CallsOfTheBatch(batches: seq<Batch>, i: nat, h: Handler, item: Item)
    requires forall j :: 0 <= j < |batches| ==> batches[j].item.number == j
    requires item.number == i && (i < |batches| ==> item == batches[i].item)
    ensures multiset(Deliveries(batches))[Delivery(item, h)] == if i < |batches| then multiset(batches[i].handlers)[h] else 0
    decreases |batches|
  {
    if batches != [] {
      var front, last := batches[..|batches| - 1], batches[|batches| - 1];
      assert batches == front + [last];
      DeliveriesAppend(front, last);
      CallsOfTheBatch(front, i, h, item);
      CallsOf(last.item, last.handlers, Delivery(item, h));
    }
  }

  lemma FetchedIs(s: Bus, i: nat)
    requires Fifo(s) && i < |s.fetched|
    ensures i < |s.posted| && s.posted[i] == s.fetched[i].item && s.fetched[i].item.number == i
  {
    ItemsAt(s.fetched, i);
    assert s.posted[i] == (Items(s.fetched) + s.queue)[i];
  }

  /** A handler whose subscription is left alone from some point on is called, by the time the bus has closed, exactly
      as often as it was subscribed then for every event not yet taken then: once each if subscribed once, and never
      if not at all. */
  lemma SubscribersAreCalled(before: seq<Step>, steps: seq<Step>, i: nat, h: Handler)
    requires Runs(false, FRESH, before) && Runs(false, After(false, FRESH, before), steps)
    requires var s := After(false, FRESH, before); var n := After(false, s, steps);
      n.closing.Closed? && |s.fetched| <= i < |n.posted| && forall j :: 0 <= j < |steps| ==> LeavesAlone(steps[j], n.posted[i].kind, h)
    ensures var s := After(false, FRESH, before); var n := After(false, s, steps);
      multiset(n.delivered)[Delivery(n.posted[i], h)] == Subscriptions(s.handlers, n.posted[i].kind, h)
  {
    var s := After(false, FRESH, before);
    var n := After(false, s, steps);
    RunsKeep(false, FRESH, before);
    RunsKeep(false, s, steps);
    TakenWith(false, s, steps, n.posted[i].kind, h);
    forall j | 0 <= j < |n.fetched| ensures n.fetched[j].item.number == j { FetchedIs(n, j); }
    if n.fetched != [] { ItemsAt(n.fetched, 0); }
    FetchedIs(n, i);
    CallsOfTheBatch(n.fetched, i, h, n.posted[i]);
    assert n.delivered + Rest(n.dispatcher) + Rest(n.closer) == n.delivered;
  }

  // ----- the lossy lane -----------------------------------------------------

  /** `posted` and `taken` log what came in and what the dispatcher took. A bound of zero or less means none. */
  datatype Lossy = Lossy(bound: int, queue: seq<Item>, dropped: nat, posted: seq<Item>, taken: seq<Item>)

  predicate Full(s: Lossy) { s.bound > 0 && |s.queue| >= s.bound }

  function PostLossy(s: Lossy, item: Item): Lossy {
    if Full(s) && s.queue != [] then
      s.(queue := s.queue[1..] + [item], dropped := s.dropped + 1, posted := s.posted + [item])
    else s.(queue := s.queue + [item], posted := s.posted + [item])
  }

  function TakeLossy(s: Lossy): Lossy
    requires s.queue != []
  {
    s.(queue := s.queue[1..], taken := s.taken + [s.queue[0]])
  }

  /** The queue is always the newest posts, never over its bound; the rest were taken or dropped. */
  predicate Newest(s: Lossy) {
    && |s.queue| <= |s.posted| && s.queue == s.posted[|s.posted| - |s.queue|..]
    && |s.posted| == |s.taken| + |s.queue| + s.dropped
    && (s.bound > 0 ==> |s.queue| <= s.bound) && (s.bound <= 0 ==> s.dropped == 0)
  }

  /** Some item for a post, none for a take by the dispatcher. */
  predicate LossyRuns(s: Lossy, moves: seq<Option<Item>>)
    decreases |moves|
  {
    moves == [] ||
    if moves[0].Some? then LossyRuns(PostLossy(s, moves[0].value), moves[1..])
    else s.queue != [] && LossyRuns(TakeLossy(s), moves[1..])
  }

  function LossyAfter(s: Lossy, moves: seq<Option<Item>>): Lossy
    requires LossyRuns(s, moves)
    decreases |moves|
  {
    if moves == [] then s
    else if moves[0].Some? then LossyAfter(PostLossy(s, moves[0].value), moves[1..])
    else LossyAfter(TakeLossy(s), moves[1..])
  }

  lemma PostKeepsNewest(s: Lossy, item: Item)
    requires Newest(s)
    ensures Newest(PostLossy(s, item))
  {
  }

  /** Over any mix of posts and takes: posted = taken + queued + dropped, and what is queued is the newest. */
  lemma {:induction false} LossyLaneKeepsNewest(s: Lossy, moves: seq<Option<Item>>)
    requires Newest(s) && LossyRuns(s, moves)
    ensures Newest(LossyAfter(s, moves))
    decreases |moves|
  {
    if moves != [] {
      if moves[0].Some? {
        PostKeepsNewest(s, moves[0].value);
        LossyLaneKeepsNewest(PostLossy(s, moves[0].value), moves[1..]);
      } else {
        LossyLaneKeepsNewest(TakeLossy(s), moves[1..]);
      }
    }
  }

  // ----- the bus object -----------------------------------------------------

  datatype Lane = LosslessLane | LossyLane

  function Snapshots(items: seq<Item>, handlers: map<Kind, seq<Handler>>): seq<Batch> {
    if items == [] then []
    else [Batch(items[0], Subscribed(handlers, items[0].kind))] + Snapshots(items[1..], handlers)
  }

  lemma SnapshotsSplit(done: seq<Delivery>, items: seq<Item>, handlers: map<Kind, seq<Handler>>)
    requires items != []
    ensures done + Deliveries(Snapshots(items, handlers))
         == done + Calls(items[0], Subscribed(handlers, items[0].kind)) + Deliveries(Snapshots(items[1..], handlers))
  {
    var calls, later := Calls(items[0], Subscribed(handlers, items[0].kind)), Deliveries(Snapshots(items[1..], handlers));
    assert Snapshots(items, handlers)[1..] == Snapshots(items[1..], handlers);
    assert Deliveries(Snapshots(items, handlers)) == calls + later;
    assert done + (calls + later) == done + calls + later;
  }

  lemma OpenHasNoCloser(suspending: bool, steps: seq<Step>)
    requires Runs(suspending, FRESH, steps) && After(suspending, FRESH, steps).closing.Open?
    ensures After(suspending, FRESH, steps).closer.Idle?
  {
    RunsKeep(suspending, FRESH, steps);
  }

  lemma CallOne(done: seq<Delivery>, item: Item, rest: seq<Handler>, due: seq<Delivery>)
    requires rest != [] && done + Calls(item, rest) == due
    ensures done + [Delivery(item, rest[0])] + Calls(item, rest[1..]) == due
  {
  }

  lemma {:induction false} WithoutAbsent(hs: seq<Handler>, h: Handler)
    requires h !in hs
    ensures Without(hs, h) == hs
  {
    if hs != [] { WithoutAbsent(hs[1..], h); }
  }

  /** The bus object. Each method is one step of one coroutine, so they interleave as the calls of the methods do;
      `history` is the run performed so far. `suspending` says whether handlers may suspend. */
  class CallBus {
    const lossyBound: int
    ghost const suspending: bool
    var handlers: map<Kind, seq<Handler>>
    var lanes: map<Kind, Lane>
    var lossless: seq<Item>
    var lossy: seq<Item>
    var dropped: nat
    var started: bool
    var dispatcher: Work
    var closer: Work
    var closing: Closing
    var losslessPosts: nat
    var lossyPosts: nat
    ghost var posted: seq<Item>
    ghost var fetched: seq<Batch>
    ghost var delivered: seq<Delivery>
    ghost var lost: seq<Delivery>
    ghost var lossyPosted: seq<Item>
    ghost var lossyTaken: seq<Item>
    ghost var history: seq<Step>

    ghost function View(): Bus
      reads this
    {
      Bus(handlers, lossless, started, dispatcher, closer, closing, posted, fetched, delivered, lost)
    }

    ghost function LossyView(): Lossy
      reads this
    {
      Lossy(lossyBound, lossy, dropped, lossyPosted, lossyTaken)
    }

    /** The lossless lane is where its history leads. */
    ghost predicate Reached()
      reads this
    {
      losslessPosts == |posted| && Runs(suspending, FRESH, history) && View() == After(suspending, FRESH, history)
    }

    constructor (lossyBound: int, ghost suspending: bool)
      ensures this.lossyBound == lossyBound && this.suspending == suspending
      ensures Reached() && history == [] && lanes == map[] && Newest(LossyView())
    {
      this.lossyBound, this.suspending := lossyBound, suspending;
      handlers, lanes, lossless, lossy, dropped, started := map[], map[], [], [], 0, false;
      dispatcher, closer, closing, losslessPosts, lossyPosts := Idle, Idle, Open, 0, 0;
      posted, fetched, delivered, lost, lossyPosted, lossyTaken, history := [], [], [], [], [], [], [];
    }

    ghost method Performed(was: Bus, step: Step)
      requires Runs(suspending, FRESH, history) && was == After(suspending, FRESH, history)
      requires Enabled(suspending, was, step) && View() == Apply(suspending, was, step)
      requires losslessPosts == |posted|
      modifies this`history
      ensures Reached() && history == old(history) + [step]
    {
      RunsExtend(suspending, FRESH, history, step);
      history := history + [step];
    }

    /** Only a kind registered as lossy may ever be dropped. */
    function LaneFor(kind: Kind): (lane: Lane)
      reads this
      ensures lane == LossyLane ==> kind in lanes
    {
      if kind in lanes then lanes[kind] else LosslessLane
    }

    method Subscribe(kind: Kind, handler: Handler)
      requires Reached()
      modifies this`handlers, this`history
      ensures Reached() && history == old(history) + [Step.Subscribe(kind, handler)]
    {
      handlers := handlers[kind := Subscribed(handlers, kind) + [handler]];
      Performed(old(View()), Step.Subscribe(kind, handler));
    }

    method Unsubscribe(kind: Kind, handler: Handler)
      requires Reached()
      modifies this`handlers, this`history
      ensures Reached() && history == old(history) + [Step.Unsubscribe(kind, handler)]
    {
      if kind in handlers {
        if handler in handlers[kind] {
          handlers := handlers[kind := Without(handlers[kind], handler)];
        } else {
          WithoutAbsent(handlers[kind], handler);
        }
      }
      Performed(old(View()), Step.Unsubscribe(kind, handler));
    }

    method PostLossless(kind: Kind)
      requires Reached()
      modifies this`lossless, this`losslessPosts, this`posted, this`history
      ensures Reached() && history == old(history) + [Step.Post(kind)]
    {
      if closing.Open? {
        lossless, posted := lossless + [Item(losslessPosts, kind)], posted + [Item(losslessPosts, kind)];
        losslessPosts := losslessPosts + 1;
      }
      Performed(old(View()), Step.Post(kind));
    }

    method PostOldestOut(kind: Kind)
      requires Newest(LossyView())
      modifies this`lossy, this`dropped, this`lossyPosts, this`lossyPosted
      ensures Newest(LossyView()) && LossyView() == PostLossy(old(LossyView()), Item(old(lossyPosts), kind))
    {
      PostKeepsNewest(LossyView(), Item(lossyPosts, kind));
      if lossyBound > 0 && |lossy| >= lossyBound {
        if lossy != [] {
          lossy, dropped := lossy[1..], dropped + 1;
        }
      }
      lossy, lossyPosted := lossy + [Item(lossyPosts, kind)], lossyPosted + [Item(lossyPosts, kind)];
      lossyPosts := lossyPosts + 1;
    }

    /** The lossless lane always grows; the lossy one makes room by dropping its oldest event. */
    method Post(kind: Kind)
      requires Reached() && Newest(LossyView())
      modifies this`lossless, this`losslessPosts, this`posted, this`history
      modifies this`lossy, this`dropped, this`lossyPosts, this`lossyPosted
      ensures Reached() && Newest(LossyView())
      ensures LaneFor(kind).LosslessLane? ==> history == old(history) + [Step.Post(kind)] && LossyView() == old(LossyView())
      ensures LaneFor(kind).LossyLane? ==> history == old(history)
      ensures LaneFor(kind).LossyLane? ==>
        LossyView() == if closing.Open? then PostLossy(old(LossyView()), Item(old(lossyPosts), kind)) else old(LossyView())
    {
      if LaneFor(kind).LosslessLane? {
        PostLossless(kind);
      } else if closing.Open? {
        PostOldestOut(kind);
      }
    }

    method Start()
      requires Reached()
      modifies this`started, this`history
      ensures Reached() && history == old(history) + [Step.Start]
    {
      started := true;
      Performed(old(View()), Step.Start);
    }

    /** The dispatcher of the lossless lane takes the oldest event and notes who is subscribed to it. */
    method Fetch()
      requires Reached() && Enabled(suspending, View(), Step.Fetch)
      modifies this`lossless, this`dispatcher, this`fetched, this`history
      ensures Reached() && history == old(history) + [Step.Fetch] && lossless == old(lossless)[1..]
      ensures dispatcher == Delivering(old(lossless)[0], Subscribed(handlers, old(lossless)[0].kind))
    {
      var item := lossless[0];
      var snapshot := Subscribed(handlers, item.kind);
      lossless, dispatcher, fetched := lossless[1..], Delivering(item, snapshot), fetched + [Batch(item, snapshot)];
      Performed(old(View()), Step.Fetch);
    }

    /** The dispatcher of the lossy lane takes the oldest event it has kept. */
    method FetchLossy() returns (item: Item)
      requires Newest(LossyView()) && started && !closing.Closed? && lossy != []
      modifies this`lossy, this`lossyTaken
      ensures Newest(LossyView()) && LossyView() == TakeLossy(old(LossyView())) && item == old(lossy)[0]
    {
      item := lossy[0];
      lossy, lossyTaken := lossy[1..], lossyTaken + [item];
    }

    /** Calls the next handler; one that raises is passed over. */
    method Handle()
      requires Reached() && Enabled(suspending, View(), Step.Handle)
      modifies this`dispatcher, this`delivered, this`history
      ensures Reached() && history == old(history) + [Step.Handle]
      ensures dispatcher == Delivering(old(dispatcher).item, old(dispatcher).rest[1..])
      ensures delivered == old(delivered) + [Delivery(old(dispatcher).item, old(dispatcher).rest[0])]
    {
      delivered := delivered + [Delivery(dispatcher.item, dispatcher.rest[0])];
      dispatcher := Delivering(dispatcher.item, dispatcher.rest[1..]);
      Performed(old(View()), Step.Handle);
    }

    method Finish()
      requires Reached() && Enabled(suspending, View(), Step.Finish)
      modifies this`dispatcher, this`history
      ensures Reached() && dispatcher.Idle? && history == old(history) + [Step.Finish]
    {
      dispatcher := Idle;
      Performed(old(View()), Step.Finish);
    }

    method BeginClose()
      requires Reached() && Enabled(suspending, View(), Step.BeginClose)
      modifies this`closing, this`history
      ensures Reached() && closing == Draining(|lossless|) && history == old(history) + [Step.BeginClose]
    {
      closing := Draining(|lossless|);
      Performed(old(View()), Step.BeginClose);
    }

    method DrainFetch()
      requires Reached() && Enabled(suspending, View(), Step.DrainFetch)
      modifies this`lossless, this`closer, this`closing, this`fetched, this`history
      ensures Reached() && history == old(history) + [Step.DrainFetch]
      ensures closing == Draining(old(closing).left - 1) && lossless == old(lossless)[1..]
      ensures closer == Delivering(old(lossless)[0], Subscribed(handlers, old(lossless)[0].kind))
    {
      TakeToClose();
      Performed(old(View()), Step.DrainFetch);
    }

    method TakeToClose()
      requires Enabled(suspending, View(), Step.DrainFetch)
      modifies this`lossless, this`closer, this`closing, this`fetched
      ensures View() == Apply(suspending, old(View()), Step.DrainFetch)
    {
      var item := lossless[0];
      var snapshot := Subscribed(handlers, item.kind);
      lossless, closer, fetched := lossless[1..], Delivering(item, snapshot), fetched + [Batch(item, snapshot)];
      closing := Draining(closing.left - 1);
    }

    method DrainHandle()
      requires Reached() && Enabled(suspending, View(), Step.DrainHandle)
      modifies this`closer, this`delivered, this`history
      ensures Reached() && history == old(history) + [Step.DrainHandle]
      ensures closer == Delivering(old(closer).item, old(closer).rest[1..])
      ensures delivered == old(delivered) + [Delivery(old(closer).item, old(closer).rest[0])]
    {
      delivered := delivered + [Delivery(closer.item, closer.rest[0])];
      closer := Delivering(closer.item, closer.rest[1..]);
      Performed(old(View()), Step.DrainHandle);
    }

    method DrainFinish()
      requires Reached() && Enabled(suspending, View(), Step.DrainFinish)
      modifies this`closer, this`history
      ensures Reached() && closer.Idle? && history == old(history) + [Step.DrainFinish]
    {
      closer := Idle;
      Performed(old(View()), Step.DrainFinish);
    }

    /** The dispatcher is cancelled, in the middle of a delivery if it is in one. */
    method CancelDispatcher()
      requires Reached() && Enabled(suspending, View(), Cancel)
      modifies this`closing, this`dispatcher, this`lost, this`history
      ensures Reached() && closing.Closed? && dispatcher.Idle? && lost == Rest(old(dispatcher))
      ensures history == old(history) + [Cancel]
    {
      lost := Rest(dispatcher);
      closing, dispatcher := Closed, Idle;
      Performed(old(View()), Cancel);
    }

    /** The loop over the handlers noted when the event was taken. */
    method HandleAll()
      requires Reached() && dispatcher.Delivering?
      modifies this`dispatcher, this`delivered, this`history
      ensures Reached() && dispatcher == Delivering(old(dispatcher).item, []) && old(history) <= history
      ensures delivered == old(delivered) + Rest(old(dispatcher))
    {
      ghost var due := delivered + Calls(dispatcher.item, dispatcher.rest);
      while dispatcher.rest != []
        invariant Reached() && dispatcher.Delivering? && dispatcher.item == old(dispatcher).item && old(history) <= history
        invariant delivered + Calls(dispatcher.item, dispatcher.rest) == due
        decreases |dispatcher.rest|
      {
        CallOne(delivered, dispatcher.item, dispatcher.rest, due);
        Handle();
      }
    }

    /** One whole delivery of the dispatcher, no other task in between: every handler subscribed when it began. */
    method DeliverNext()
      requires Reached() && Enabled(suspending, View(), Step.Fetch)
      modifies this`lossless, this`dispatcher, this`fetched, this`delivered, this`history
      ensures Reached() && dispatcher.Idle? && old(history) <= history && lossless == old(lossless)[1..]
      ensures delivered == old(delivered) + Calls(old(lossless)[0], Subscribed(handlers, old(lossless)[0].kind))
    {
      Fetch();
      HandleAll();
      Finish();
    }

    method DrainHandleAll()
      requires Reached() && closer.Delivering?
      modifies this`closer, this`delivered, this`history
      ensures Reached() && closer == Delivering(old(closer).item, []) && old(history) <= history
      ensures delivered == old(delivered) + Rest(old(closer))
    {
      ghost var due := delivered + Calls(closer.item, closer.rest);
      while closer.rest != []
        invariant Reached() && closer.Delivering? && closer.item == old(closer).item && old(history) <= history
        invariant delivered + Calls(closer.item, closer.rest) == due
        decreases |closer.rest|
      {
        CallOne(delivered, closer.item, closer.rest, due);
        DrainHandle();
      }
    }

    /** The same for the closing task. */
    method DrainNext()
      requires Reached() && Enabled(suspending, View(), Step.DrainFetch)
      modifies this`lossless, this`closer, this`closing, this`fetched, this`delivered, this`history
      ensures Reached() && closer.Idle? && old(history) <= history
      ensures closing == Draining(old(closing).left - 1) && lossless == old(lossless)[1..]
      ensures delivered == old(delivered) + Calls(old(lossless)[0], Subscribed(handlers, old(lossless)[0].kind))
    {
      DrainFetch();
      DrainHandleAll();
      DrainFinish();
    }

    method DrainAll()
      requires Reached() && closing == Draining(|lossless|) && closer.Idle? && (suspending || dispatcher.Idle?)
      modifies this`lossless, this`closer, this`closing, this`fetched, this`delivered, this`history
      ensures Reached() && closing == Draining(0) && lossless == [] && closer.Idle? && old(history) <= history
      ensures delivered == old(delivered) + Deliveries(Snapshots(old(lossless), handlers))
    {
      while closing.left > 0 && lossless != []
        invariant Reached() && closing == Draining(|lossless|) && closer.Idle? && old(history) <= history
        invariant delivered + Deliveries(Snapshots(lossless, handlers)) == old(delivered) + Deliveries(Snapshots(old(lossless), handlers))
        decreases |lossless|
      {
        SnapshotsSplit(delivered, lossless, handlers);
        DrainNext();
      }
    }

    /** A close with no other task in between delivers what the lossless lane still holds, in order, and loses what
        a suspended dispatcher had still to call. A second close does nothing. */
    method Aclose()
      requires Reached() && (closing.Open? ==> Enabled(suspending, View(), Step.BeginClose))
      modifies this`closing, this`lossless, this`dispatcher, this`closer, this`fetched, this`delivered, this`lost, this`history
      ensures Reached() && old(history) <= history && !closing.Open?
      ensures !old(closing).Open? ==> history == old(history)
      ensures old(closing).Open? ==> closing.Closed? && lossless == [] && lost == Rest(old(dispatcher))
      ensures old(closing).Open? ==> delivered == old(delivered) + Deliveries(Snapshots(old(lossless), handlers))
    {
      if !closing.Open? {
        return;
      }
      OpenHasNoCloser(suspending, history);
      BeginClose();
      DrainAndCancel();
    }

    method DrainAndCancel()
      requires Reached() && closing == Draining(|lossless|) && closer.Idle? && (suspending || dispatcher.Idle?)
      modifies this`closing, this`lossless, this`dispatcher, this`closer, this`fetched, this`delivered, this`lost, this`history
      ensures Reached() && old(history) <= history && closing.Closed? && lossless == [] && lost == Rest(old(dispatcher))
      ensures delivered == old(delivered) + Deliveries(Snapshots(old(lossless), handlers))
    {
      DrainAll();
      CancelDispatcher();
    }
  }
}
