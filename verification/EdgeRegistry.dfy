/** The cloud side's registry of edge streams: reconnects, teardowns and device routes, interleaved. */
module EdgeRegistry {
  import opened Text

  type Edge = string
  datatype Device = Device(id: int)

  /** Opened, registered, its reader stopped, deregistered. */
  datatype Phase = Opened | Serving | Stopping | Gone

  datatype Handler = Handler(edge: Edge, phase: Phase, closed: bool)

  /** Handlers are numbered by arrival and never forgotten; `streams` is the registry. */
  datatype Server = Server(handlers: seq<Handler>, streams: map<Edge, nat>, routes: map<Device, Edge>)

  const EMPTY := Server([], map[], map[])

  datatype Step =
    | Connect(edge: Edge)
    | Register(handler: nat)
    | Heartbeat(handler: nat, devices: seq<Device>)
    | Close(handler: nat)
    | StopReader(handler: nat)
    | Leave(handler: nat)               // out of the registry, and clean up: nothing suspends in between
    | CloseAll

  predicate In(s: Server, h: nat, phases: set<Phase>) {
    h < |s.handlers| && s.handlers[h].phase in phases
  }

  predicate Enabled(s: Server, step: Step) {
    match step
    case Connect(_) => true
    case Register(h) => In(s, h, {Opened})
    // a displaced handler's reader goes on until its own teardown stops it
    case Heartbeat(h, _) => In(s, h, {Serving})
    case Close(h) => In(s, h, {Serving, Stopping})
    case StopReader(h) => In(s, h, {Serving})
    case Leave(h) => In(s, h, {Stopping})
    case CloseAll => true
  }

  function Shut(handlers: seq<Handler>, h: nat): seq<Handler>
    requires h < |handlers|
  {
    handlers[h := handlers[h].(closed := true)]
  }

  function Enter(handlers: seq<Handler>, h: nat, phase: Phase): seq<Handler>
    requires h < |handlers|
  {
    handlers[h := handlers[h].(phase := phase)]
  }

  /** A heartbeat claims its devices for the sender's edge. */
  function Claim(routes: map<Device, Edge>, devices: seq<Device>, edge: Edge): map<Device, Edge>
    decreases |devices|
  {
    if devices == [] then routes else Claim(routes[devices[0] := edge], devices[1..], edge)
  }

  /** Forgets every route to one edge. */
  function Forget(routes: map<Device, Edge>, edge: Edge): map<Device, Edge> {
    map d | d in routes && routes[d] != edge :: routes[d]
  }

  /** Removes a stream from the registry unless another one has taken its place. */
  function Withdraw(streams: map<Edge, nat>, edge: Edge, h: nat): map<Edge, nat> {
    if edge in streams && streams[edge] == h then streams - {edge} else streams
  }

  function Apply(s: Server, step: Step): Server
    requires Registered(s) && Enabled(s, step)
  {
    match step
    case Connect(e) => s.(handlers := s.handlers + [Handler(e, Opened, false)])
    case Register(h) =>
      var e := s.handlers[h].edge;
      var shut := if e in s.streams then Shut(s.handlers, s.streams[e]) else s.handlers;
      s.(handlers := Enter(shut, h, Serving), streams := s.streams[e := h])
    case Heartbeat(h, devices) => s.(routes := Claim(s.routes, devices, s.handlers[h].edge))
    case Close(h) => s.(handlers := Shut(s.handlers, h))
    case StopReader(h) => s.(handlers := Enter(Shut(s.handlers, h), h, Stopping))
    case Leave(h) =>
      var e := s.handlers[h].edge;
      var streams := Withdraw(s.streams, e, h);
      s.(handlers := Enter(s.handlers, h, Gone), streams := streams,
         routes := if e in streams then s.routes else Forget(s.routes, e))
    case CloseAll =>
      s.(handlers := seq(|s.handlers|, i requires 0 <= i < |s.handlers| =>
        s.handlers[i].(closed := s.handlers[i].closed || Entry(s, i))))
  }

  // ----- what every step keeps ----------------------------------------------

  predicate Entry(s: Server, h: nat) {
    h < |s.handlers| && s.handlers[h].edge in s.streams && s.streams[s.handlers[h].edge] == h
  }

  /** Each registry entry is a handler of that edge which has registered and not yet left. */
  predicate Registered(s: Server) {
    forall e :: e in s.streams ==>
      In(s, s.streams[e], {Serving, Stopping}) && s.handlers[s.streams[e]].edge == e
  }

  /** Of an edge's streams in service at most one is open, and it is the registry's. */
  predicate OneOpen(s: Server) {
    forall h :: 0 <= h < |s.handlers| ==>
      (s.handlers[h].phase in {Serving, Stopping} && !s.handlers[h].closed ==> Entry(s, h))
  }

  /** `h` is a handler of `edge` that has still to clean up. */
  predicate Answers(s: Server, h: nat, edge: Edge) {
    In(s, h, {Serving, Stopping}) && s.handlers[h].edge == edge
  }

  ghost predicate Attended(s: Server, edge: Edge) {
    exists h :: Answers(s, h, edge)
  }

  /** Every routed edge has a handler that will clean up after it. */
  ghost predicate Routed(s: Server) {
    forall d :: d in s.routes ==> Attended(s, s.routes[d])
  }

  ghost predicate Inv(s: Server) {
    Registered(s) && OneOpen(s) && Routed(s)
  }

  lemma {:induction false} ClaimIs(routes: map<Device, Edge>, devices: seq<Device>, edge: Edge, d: Device)
    ensures d in Claim(routes, devices, edge) <==> d in routes || d in devices
    ensures d in Claim(routes, devices, edge) ==>
      Claim(routes, devices, edge)[d] == if d in devices then edge else routes[d]
    decreases |devices|
  {
    if devices != [] {
      ClaimIs(routes[devices[0] := edge], devices[1..], edge, d);
      assert devices == [devices[0]] + devices[1..];
    }
  }

  lemma StepRegisters(s: Server, step: Step)
    requires Inv(s) && Enabled(s, step)
    ensures Registered(Apply(s, step)) && OneOpen(Apply(s, step))
  {
  }

  lemma StepAttends(s: Server, step: Step, edge: Edge)
    requires Inv(s) && Enabled(s, step) && Attended(s, edge)
    requires step.Leave? ==> s.handlers[step.handler].edge != edge || edge in Apply(s, step).streams
    ensures Attended(Apply(s, step), edge)
  {
    var h :| Answers(s, h, edge);
    var n := Apply(s, step);
    if step.Leave? && step.handler == h {
      assert Answers(n, n.streams[edge], edge);
    } else {
      assert Answers(n, h, edge);
    }
  }

  lemma StepRoutes(s: Server, step: Step)
    requires Inv(s) && Enabled(s, step)
    ensures Routed(Apply(s, step))
  {
    var n := Apply(s, step);
    forall d | d in n.routes ensures Attended(n, n.routes[d]) {
      if step.Heartbeat? {
        ClaimIs(s.routes, step.devices, s.handlers[step.handler].edge, d);
        assert Answers(s, step.handler, s.handlers[step.handler].edge);
      }
      StepAttends(s, step, n.routes[d]);
    }
  }

  lemma StepKeeps(s: Server, step: Step)
    requires Inv(s) && Enabled(s, step)
    ensures Inv(Apply(s, step))
  {
    StepRegisters(s, step);
    StepRoutes(s, step);
  }

  // ----- every run ----------------------------------------------------------

  ghost predicate Runs(s: Server, steps: seq<Step>)
    decreases |steps|
  {
    steps == [] || (Registered(s) && Enabled(s, steps[0]) && Runs(Apply(s, steps[0]), steps[1..]))
  }

  ghost function After(s: Server, steps: seq<Step>): Server
    requires Runs(s, steps)
    decreases |steps|
  {
    if steps == [] then s else After(Apply(s, steps[0]), steps[1..])
  }

  lemma {:induction false} RunsKeep(s: Server, steps: seq<Step>)
    requires Inv(s) && Runs(s, steps)
    ensures Inv(After(s, steps))
    decreases |steps|
  {
    if steps != [] {
      StepKeeps(s, steps[0]);
      RunsKeep(Apply(s, steps[0]), steps[1..]);
    }
  }

  /** However connects, heartbeats, closes and teardowns interleave, an edge has at most one open stream in
      service, and it is the one the registry sends to. */
  lemma OneOpenStreamPerEdge(steps: seq<Step>, g: nat, h: nat)
    requires Runs(EMPTY, steps)
    requires var s := After(EMPTY, steps); In(s, g, {Serving, Stopping}) && In(s, h, {Serving, Stopping})
    requires var s := After(EMPTY, steps); s.handlers[g].edge == s.handlers[h].edge
    requires var s := After(EMPTY, steps); !s.handlers[g].closed && !s.handlers[h].closed
    ensures g == h && Entry(After(EMPTY, steps), g)
  {
    RunsKeep(EMPTY, steps);
  }

  /** Once the last handler of an edge has gone, nothing refers to that edge any more. */
  lemma LastHandlerLeavesNothing(steps: seq<Step>, edge: Edge)
    requires Runs(EMPTY, steps)
    requires forall h :: 0 <= h < |After(EMPTY, steps).handlers| && After(EMPTY, steps).handlers[h].edge == edge ==>
      After(EMPTY, steps).handlers[h].phase in {Opened, Gone}
    ensures edge !in After(EMPTY, steps).streams
    ensures forall d :: d in After(EMPTY, steps).routes ==> After(EMPTY, steps).routes[d] != edge
  {
    RunsKeep(EMPTY, steps);
  }

  /** No step of this run takes the current stream of `edge` out of the registry. */
  ghost predicate OnlyDisplacedLeave(s: Server, steps: seq<Step>, edge: Edge)
    requires Runs(s, steps)
    decreases |steps|
  {
    steps == [] || (
      && (steps[0].Leave? && s.handlers[steps[0].handler].edge == edge ==> !Entry(s, steps[0].handler))
      && OnlyDisplacedLeave(Apply(s, steps[0]), steps[1..], edge))
  }

  /** Some heartbeat of the run names this device. */
  predicate Claimed(steps: seq<Step>, d: Device) {
    exists i :: 0 <= i < |steps| && steps[i].Heartbeat? && d in steps[i].devices
  }

  /** The teardown of displaced streams never unregisters their successor nor drops a route of the edge. */
  lemma {:induction false} DisplacedTeardownsKeepRoutes(s: Server, steps: seq<Step>, edge: Edge, d: Device)
    requires Inv(s) && Runs(s, steps) && OnlyDisplacedLeave(s, steps, edge)
    requires edge in s.streams && d in s.routes && s.routes[d] == edge && !Claimed(steps, d)
    ensures edge in After(s, steps).streams
    ensures d in After(s, steps).routes && After(s, steps).routes[d] == edge
    decreases |steps|
  {
    if steps != [] {
      var n := Apply(s, steps[0]);
      StepKeeps(s, steps[0]);
      if steps[0].Heartbeat? {
        ClaimIs(s.routes, steps[0].devices, s.handlers[steps[0].handler].edge, d);
      }
      assert d in n.routes && n.routes[d] == edge;
      forall i | 0 <= i < |steps| - 1 && steps[1..][i].Heartbeat? ensures d !in steps[1..][i].devices {
        assert steps[1..][i] == steps[i + 1];
      }
      DisplacedTeardownsKeepRoutes(n, steps[1..], edge, d);
    }
  }

  // ----- when a route leads to a registered stream --------------------------

  /** Every device resolves to an edge the registry knows. */
  predicate Reachable(s: Server) {
    forall d :: d in s.routes ==> s.routes[d] in s.streams
  }

  /** A heartbeat read by a displaced handler after its successor has already left. */
  predicate LateHeartbeat(s: Server, step: Step)
    requires Enabled(s, step)
  {
    step.Heartbeat? && step.devices != [] && s.handlers[step.handler].edge !in s.streams
  }

  /** Every step keeps routes registered but a late heartbeat. */
  lemma ReachableUnlessLate(s: Server, step: Step)
    requires Inv(s) && Reachable(s) && Enabled(s, step)
    ensures Reachable(Apply(s, step)) <==> !LateHeartbeat(s, step)
  {
    var n := Apply(s, step);
    if LateHeartbeat(s, step) {
      var e := s.handlers[step.handler].edge;
      ClaimIs(s.routes, step.devices, e, step.devices[0]);
      assert step.devices[0] in n.routes && n.routes[step.devices[0]] == e;
    } else {
      forall d | d in n.routes ensures n.routes[d] in n.streams {
        if step.Heartbeat? { ClaimIs(s.routes, step.devices, s.handlers[step.handler].edge, d); }
      }
    }
  }

  /** No heartbeat of this run is late. */
  ghost predicate Punctual(s: Server, steps: seq<Step>)
    requires Runs(s, steps)
    decreases |steps|
  {
    steps == [] || (!LateHeartbeat(s, steps[0]) && Punctual(Apply(s, steps[0]), steps[1..]))
  }

  /** Over every run without one, every device resolves to a registered edge. */
  lemma {:induction false} PunctualRunsStayReachable(s: Server, steps: seq<Step>)
    requires Inv(s) && Reachable(s) && Runs(s, steps) && Punctual(s, steps)
    ensures Reachable(After(s, steps))
    decreases |steps|
  {
    if steps != [] {
      StepKeeps(s, steps[0]);
      ReachableUnlessLate(s, steps[0]);
      PunctualRunsStayReachable(Apply(s, steps[0]), steps[1..]);
    }
  }

  /** A late heartbeat is made good when its handler leaves. */
  lemma LeavingRestores(s: Server, h: nat, edge: Edge)
    requires Inv(s) && Enabled(s, Leave(h)) && s.handlers[h].edge == edge
    requires forall d :: d in s.routes && s.routes[d] != edge ==> s.routes[d] in s.streams
    ensures Reachable(Apply(s, Leave(h)))
  {
  }

  lemma {:induction false} RunsExtend(s: Server, steps: seq<Step>, step: Step)
    requires Inv(s) && Runs(s, steps) && Enabled(After(s, steps), step)
    ensures Registered(After(s, steps))
    ensures Runs(s, steps + [step]) && After(s, steps + [step]) == Apply(After(s, steps), step)
    decreases |steps|
  {
    RunsKeep(s, steps);
    if steps == [] {
      assert [] + [step] == [step];
    } else {
      StepKeeps(s, steps[0]);
      RunsExtend(Apply(s, steps[0]), steps[1..], step);
      assert (steps + [step])[1..] == steps[1..] + [step];
    }
  }

  lemma Next(steps: seq<Step>, s: Server, step: Step) returns (longer: seq<Step>, n: Server)
    requires Runs(EMPTY, steps) && s == After(EMPTY, steps) && Enabled(s, step)
    ensures Registered(s) && Runs(EMPTY, longer) && n == After(EMPTY, longer) == Apply(s, step)
  {
    RunsExtend(EMPTY, steps, step);
    longer := steps + [step];
    n := Apply(s, step);
  }

  /** A device that resolves to an edge with no stream: the displaced handler 0 outlives its successor 1. */
  lemma RouteWithoutAStream(edge: Edge, device: Device) returns (steps: seq<Step>)
    ensures Runs(EMPTY, steps) && After(EMPTY, steps).streams == map[]
    ensures device in After(EMPTY, steps).routes && After(EMPTY, steps).routes[device] == edge
  {
    steps := [];
    var s := EMPTY;
    steps, s := Next(steps, s, Connect(edge));
    steps, s := Next(steps, s, Register(0));
    steps, s := Next(steps, s, Connect(edge));
    steps, s := Next(steps, s, Register(1));
    steps, s := Next(steps, s, StopReader(1));
    steps, s := Next(steps, s, Leave(1));
    assert s.streams == map[];
    ClaimIs(s.routes, [device], edge, device);
    steps, s := Next(steps, s, Heartbeat(0, [device]));
  }

  // ----- whom a device resolves to --------------------------------------------

  /** A run is a shorter run and one more step. */
  lemma {:induction false} RunsSplit(s: Server, steps: seq<Step>)
    requires Runs(s, steps) && steps != []
    ensures var front, last := steps[..|steps| - 1], steps[|steps| - 1];
      && Runs(s, front) && Registered(After(s, front)) && Enabled(After(s, front), last)
      && After(s, steps) == Apply(After(s, front), last)
    decreases |steps|
  {
    if |steps| > 1 {
      RunsSplit(Apply(s, steps[0]), steps[1..]);
      assert steps[..|steps| - 1][1..] == steps[1..][..|steps| - 2];
    }
  }

  predicate Routes(s: Server, d: Device, e: Edge) { d in s.routes && s.routes[d] == e }

  predicate Names(step: Step, d: Device) { step.Heartbeat? && d in step.devices }

  /** The step is a heartbeat from `e` that names `d`. */
  predicate Claims(s: Server, step: Step, d: Device, e: Edge) {
    Names(step, d) && step.handler < |s.handlers| && s.handlers[step.handler].edge == e
  }

  /** A handler of `e` leaves and no other stream is registered for it. */
  predicate Forgets(s: Server, step: Step, e: Edge) {
    && step.Leave? && step.handler < |s.handlers| && s.handlers[step.handler].edge == e
    && e !in Withdraw(s.streams, e, step.handler)
  }

  lemma RouteStep(s: Server, step: Step, d: Device, e: Edge)
    requires Registered(s) && Enabled(s, step)
    ensures Routes(Apply(s, step), d, e) <==>
      Claims(s, step, d, e) || (Routes(s, d, e) && !Names(step, d) && !Forgets(s, step, e))
  {
    if step.Heartbeat? {
      ClaimIs(s.routes, step.devices, s.handlers[step.handler].edge, d);
    }
  }

  /** Heartbeat `i` of the run claims `d` for `e`, no later heartbeat names `d`, and `e` is not forgotten since. */
  ghost predicate ClaimStands(steps: seq<Step>, i: nat, d: Device, e: Edge)
    requires Runs(EMPTY, steps)
  {
    && i < |steps| && Runs(EMPTY, steps[..i]) && Claims(After(EMPTY, steps[..i]), steps[i], d, e)
    && forall j :: i < j < |steps| ==>
         !Names(steps[j], d) && Runs(EMPTY, steps[..j]) && !Forgets(After(EMPTY, steps[..j]), steps[j], e)
  }

  lemma StandsStill(front: seq<Step>, last: Step, i: nat, d: Device, e: Edge)
    requires Runs(EMPTY, front) && Runs(EMPTY, front + [last])
    requires ClaimStands(front, i, d, e) && !Names(last, d) && !Forgets(After(EMPTY, front), last, e)
    ensures ClaimStands(front + [last], i, d, e)
  {
    var steps := front + [last];
    assert steps[..i] == front[..i];
    forall j | i < j < |steps|
      ensures !Names(steps[j], d) && Runs(EMPTY, steps[..j]) && !Forgets(After(EMPTY, steps[..j]), steps[j], e)
    {
      assert steps[..j] == front[..j];
      if j == |front| { assert front[..j] == front; }
    }
  }

  lemma StoodBefore(front: seq<Step>, last: Step, i: nat, d: Device, e: Edge)
    requires Runs(EMPTY, front) && Runs(EMPTY, front + [last]) && ClaimStands(front + [last], i, d, e) && i < |front|
    ensures ClaimStands(front, i, d, e) && !Names(last, d) && !Forgets(After(EMPTY, front), last, e)
  {
    var steps := front + [last];
    assert steps[..i] == front[..i] && steps[..|front|] == front;
    forall j | i < j < |front|
      ensures !Names(front[j], d) && Runs(EMPTY, front[..j]) && !Forgets(After(EMPTY, front[..j]), front[j], e)
    {
      assert steps[..j] == front[..j] && steps[j] == front[j];
    }
  }

  lemma {:induction false} RoutedSince(steps: seq<Step>, d: Device, e: Edge) returns (i: nat)
    requires Runs(EMPTY, steps) && Routes(After(EMPTY, steps), d, e)
    ensures ClaimStands(steps, i, d, e)
    decreases |steps|
  {
    RunsSplit(EMPTY, steps);
    var front, last := steps[..|steps| - 1], steps[|steps| - 1];
    assert steps == front + [last];
    RouteStep(After(EMPTY, front), last, d, e);
    if Claims(After(EMPTY, front), last, d, e) {
      i := |front|;
      assert steps[..i] == front;
    } else {
      i := RoutedSince(front, d, e);
      StandsStill(front, last, i, d, e);
    }
  }

  lemma {:induction false} RoutedFrom(steps: seq<Step>, i: nat, d: Device, e: Edge)
    requires Runs(EMPTY, steps) && ClaimStands(steps, i, d, e)
    ensures Routes(After(EMPTY, steps), d, e)
    decreases |steps|
  {
    RunsSplit(EMPTY, steps);
    var front, last := steps[..|steps| - 1], steps[|steps| - 1];
    assert steps == front + [last];
    RouteStep(After(EMPTY, front), last, d, e);
    if i < |front| {
      StoodBefore(front, last, i, d, e);
      RoutedFrom(front, i, d, e);
    } else {
      assert steps[..i] == front;
    }
  }

  /** Over every run: a device is routed to an edge exactly if the last heartbeat that names it came from that edge,
      and the edge was not forgotten since. */
  lemma RoutedByTheLastClaim(steps: seq<Step>, d: Device, e: Edge)
    requires Runs(EMPTY, steps)
    ensures Routes(After(EMPTY, steps), d, e) <==> exists i :: ClaimStands(steps, i, d, e)
  {
    if Routes(After(EMPTY, steps), d, e) {
      var i := RoutedSince(steps, d, e);
    }
    if i :| ClaimStands(steps, i, d, e) {
      RoutedFrom(steps, i, d, e);
    }
  }

  // ----- the objects --------------------------------------------------------

  /** Deletes the stale routes one by one. */
  method DropRoutes(routes: map<Device, Edge>, edge: Edge) returns (kept: map<Device, Edge>)
    ensures kept == Forget(routes, edge)
  {
    kept := routes;
    var stale := set d | d in routes && routes[d] == edge;
    while stale != {}
      invariant forall d :: d in kept ==> d in routes && kept[d] == routes[d]
      invariant forall d :: d in routes && routes[d] != edge ==> d in kept
      invariant forall d :: d in kept && kept[d] == edge ==> d in stale
      decreases |stale|
    {
      var d :| d in stale;
      if d in kept && kept[d] == edge {
        kept := kept - {d};
      }
      stale := stale - {d};
    }
  }

  class ServerStream {
    const edge: Edge
    var closed: bool

    constructor (edge: Edge)
      ensures this.edge == edge && !closed
    {
      this.edge := edge;
      closed := false;
    }
  }

  ghost function Snapshot(arrivals: seq<ServerStream>, phases: seq<Phase>): (r: seq<Handler>)
    requires |arrivals| == |phases|
    reads arrivals
    ensures |r| == |arrivals|
    ensures forall i :: 0 <= i < |r| ==> r[i] == Handler(arrivals[i].edge, phases[i], arrivals[i].closed)
  {
    seq(|arrivals|, i requires 0 <= i < |arrivals| && i < |phases| reads arrivals =>
      Handler(arrivals[i].edge, phases[i], arrivals[i].closed))
  }

  /** The server object. `arrivals` are all streams in order of arrival, `phases` how far each has come, `entry` the
      numbers of the registered ones, `history` the protocol steps performed so far. */
  class CloudEdgeServer {
    var streams: map<Edge, ServerStream>
    var deviceToEdge: map<Device, Edge>
    ghost var arrivals: seq<ServerStream>
    ghost var phases: seq<Phase>
    ghost var entry: map<Edge, nat>
    ghost var history: seq<Step>

    ghost predicate Valid()
      reads this
    {
      && |phases| == |arrivals|
      && (forall i, j :: 0 <= i < j < |arrivals| ==> arrivals[i] != arrivals[j])
      && streams.Keys == entry.Keys
      && (forall e :: e in entry ==> entry[e] < |arrivals| && arrivals[entry[e]] == streams[e])
    }

    ghost function View(): Server
      requires Valid()
      reads this, arrivals
    {
      Server(Snapshot(arrivals, phases), entry, deviceToEdge)
    }

    /** The object is where its history leads. */
    ghost predicate Reached()
      reads this, arrivals
    {
      Valid() && Runs(EMPTY, history) && View() == After(EMPTY, history) && Inv(View())
    }

    constructor ()
      ensures Reached() && history == []
    {
      streams, deviceToEdge, arrivals, phases, entry, history := map[], map[], [], [], map[], [];
    }

    /** The object has performed one more step. */
    ghost method Performed(was: Server, step: Step)
      requires Valid() && Runs(EMPTY, history) && was == After(EMPTY, history) && Inv(was)
      requires Enabled(was, step) && View() == Apply(was, step)
      modifies this`history
      ensures Reached() && history == old(history) + [step]
    {
      StepKeeps(was, step);
      RunsExtend(EMPTY, history, step);
      history := history + [step];
    }

    /** A new connection. */
    method OpenStream(edge: Edge) returns (stream: ServerStream)
      requires Reached()
      modifies this`arrivals, this`phases, this`history
      ensures Reached() && history == old(history) + [Connect(edge)]
      ensures fresh(stream) && arrivals == old(arrivals) + [stream]
    {
      stream := new ServerStream(edge);
      arrivals, phases := arrivals + [stream], phases + [Opened];
      Performed(old(View()), Connect(edge));
    }

    method Shutdown(stream: ServerStream, ghost h: nat)
      requires Valid() && h < |arrivals| && arrivals[h] == stream
      modifies stream
      ensures Valid() && View() == old(View()).(handlers := Shut(old(View()).handlers, h))
    {
      stream.closed := true;
      assert View().handlers == Shut(old(View()).handlers, h);
    }

    /** The reader is at its end and closes its stream. */
    method CloseStream(stream: ServerStream, ghost h: nat)
      requires Reached() && h < |arrivals| && arrivals[h] == stream && Enabled(View(), Close(h))
      modifies this`history, stream
      ensures Reached() && history == old(history) + [Close(h)]
    {
      Shutdown(stream, h);
      Performed(old(View()), Close(h));
    }

    ghost method EnterPhase(h: nat, phase: Phase)
      requires Valid() && h < |arrivals|
      modifies this`phases
      ensures Valid() && View() == old(View()).(handlers := Enter(old(View()).handlers, h, phase))
    {
      ghost var was := View();
      phases := phases[h := phase];
      assert View().handlers == Enter(was.handlers, h, phase);
    }

    method Install(stream: ServerStream, ghost h: nat)
      requires Valid() && h < |arrivals| && arrivals[h] == stream
      modifies this`streams, this`entry
      ensures Valid() && View() == old(View()).(streams := old(View()).streams[stream.edge := h])
    {
      streams, entry := streams[stream.edge := stream], entry[stream.edge := h];
    }

    /** A reconnecting edge's stream displaces and closes the stale one. */
    method RegisterStream(stream: ServerStream, ghost h: nat)
      requires Reached() && h < |arrivals| && arrivals[h] == stream && Enabled(View(), Register(h))
      modifies this`streams, this`entry, this`phases, this`history, arrivals
      ensures Reached() && history == old(history) + [Register(h)]
    {
      Displace(stream, h);
      Performed(old(View()), Register(h));
    }

    method Displace(stream: ServerStream, ghost h: nat)
      requires Valid() && h < |arrivals| && arrivals[h] == stream && Registered(View()) && Enabled(View(), Register(h))
      modifies this`streams, this`entry, this`phases, arrivals
      ensures Valid() && View() == Apply(old(View()), Register(h))
    {
      if stream.edge in streams {
        Shutdown(streams[stream.edge], entry[stream.edge]);
      }
      Install(stream, h);
      EnterPhase(h, Serving);
    }

    /** The handler is at its end: its stream is closed, its reader awaited. */
    method StopReader(stream: ServerStream, ghost h: nat)
      requires Reached() && h < |arrivals| && arrivals[h] == stream && Enabled(View(), Step.StopReader(h))
      modifies this`phases, this`history, stream
      ensures Reached() && history == old(history) + [Step.StopReader(h)]
    {
      Shutdown(stream, h);
      EnterPhase(h, Stopping);
      Performed(old(View()), Step.StopReader(h));
    }

    method Uninstall(stream: ServerStream, ghost h: nat)
      requires Valid() && h < |arrivals| && arrivals[h] == stream
      modifies this`streams, this`entry
      ensures Valid() && View() == old(View()).(streams := Withdraw(old(View()).streams, stream.edge, h))
    {
      if stream.edge in streams && streams[stream.edge] == stream {
        streams, entry := streams - {stream.edge}, entry - {stream.edge};
      }
    }

    method CleanRoutes(edge: Edge)
      requires Valid()
      modifies this`deviceToEdge
      ensures Valid()
      ensures var v := old(View()); View() == v.(routes := if edge in v.streams then v.routes else Forget(v.routes, edge))
    {
      if edge !in streams {
        deviceToEdge := DropRoutes(deviceToEdge, edge);
      }
    }

    /** Only its own entry is removed; the edge's routes go only if no stream has taken over. */
    method DeregisterStream(stream: ServerStream, ghost h: nat)
      requires Reached() && h < |arrivals| && arrivals[h] == stream && Enabled(View(), Leave(h))
      modifies this`streams, this`entry, this`phases, this`deviceToEdge, this`history
      ensures Reached() && history == old(history) + [Leave(h)]
    {
      Withdrawn(stream, h);
      Performed(old(View()), Leave(h));
    }

    method Withdrawn(stream: ServerStream, ghost h: nat)
      requires Valid() && h < |arrivals| && arrivals[h] == stream && Registered(View()) && Enabled(View(), Leave(h))
      modifies this`streams, this`entry, this`phases, this`deviceToEdge
      ensures Valid() && View() == Apply(old(View()), Leave(h))
    {
      Uninstall(stream, h);
      CleanRoutes(stream.edge);
      EnterPhase(h, Gone);
    }

    method ClaimDevices(devices: seq<Device>, edge: Edge)
      modifies this`deviceToEdge
      ensures deviceToEdge == Claim(old(deviceToEdge), devices, edge)
    {
      var i := 0;
      while i < |devices|
        invariant i <= |devices|
        invariant Claim(deviceToEdge, devices[i..], edge) == Claim(old(deviceToEdge), devices, edge)
      {
        assert devices[i..][1..] == devices[i + 1..];
        deviceToEdge := deviceToEdge[devices[i] := edge];
        i := i + 1;
      }
    }

    /** The routing part of the reader's loop. */
    method OnHeartbeat(stream: ServerStream, devices: seq<Device>, ghost h: nat)
      requires Reached() && h < |arrivals| && arrivals[h] == stream && Enabled(View(), Heartbeat(h, devices))
      modifies this`deviceToEdge, this`history
      ensures Reached() && history == old(history) + [Heartbeat(h, devices)]
    {
      ClaimDevices(devices, stream.edge);
      Performed(old(View()), Heartbeat(h, devices));
    }

    method CloseEach(open: set<ServerStream>)
      modifies open
      ensures forall stream :: stream in open ==> stream.closed
    {
      var left := open;
      while left != {}
        invariant left <= open && forall stream :: stream in open - left ==> stream.closed
        decreases |left|
      {
        var stream :| stream in left;
        stream.closed := true;
        left := left - {stream};
      }
    }

    lemma RegisteredIsEntry(h: nat)
      requires Valid() && Registered(View()) && h < |arrivals|
      ensures arrivals[h] in streams.Values <==> Entry(View(), h)
    {
      if arrivals[h] in streams.Values {
        var e :| e in streams && streams[e] == arrivals[h];
        assert arrivals[entry[e]] == arrivals[h] && View().handlers[entry[e]].edge == e;
      }
    }

    /** Stopping the server closes every registered stream; their handlers then tear down by themselves. */
    method Stop()
      requires Reached()
      modifies this`history, arrivals
      ensures Reached() && history == old(history) + [CloseAll]
    {
      forall h | 0 <= h < |arrivals| ensures arrivals[h] in streams.Values <==> Entry(View(), h) {
        RegisteredIsEntry(h);
      }
      CloseEach(streams.Values);
      assert View().handlers == Apply(old(View()), CloseAll).handlers;
      Performed(old(View()), CloseAll);
    }

    /** The edge that claimed the device last and was not forgotten since; None where the source raises
        EdgeNotConnected. */
    method ResolveEdgeForDevice(device: Device) returns (edge: Option<Edge>)
      requires Reached()
      ensures forall e :: edge == Some(e) <==> exists i :: ClaimStands(history, i, device, e)
    {
      edge := if device in deviceToEdge then Some(deviceToEdge[device]) else None;
      forall e ensures edge == Some(e) <==> exists i :: ClaimStands(history, i, device, e) {
        RoutedByTheLastClaim(history, device, e);
        assert edge == Some(e) <==> Routes(View(), device, e);
      }
    }
  }
}
