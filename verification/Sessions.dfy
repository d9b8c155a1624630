/** The state of one call, what the outside world may do to it, and what must hold of it at every await. */
module Sessions {
  import opened Text
  import opened Transcripts
  import opened Routing
  import opened Pacing
  import Streaming

  datatype Config = Config(
    pipeline: PipelineConfig,
    silence: SilenceConfig,
    wrapUp: WrapUpConfig,
    whitelist: set<string>,
    maxInterruptions: int,
    listenOnly: bool)

  // ----- what the outside world does, as data --------------------------------

  /** An ASR partial, with the verdict of the interruption rules on it. */
  datatype Partial = Partial(text: string, triggered: bool)

  /** One playback: the partials heard while its task runs, those heard between its end and the driver
      resuming, and whether `audio_out` raises. */
  datatype Playback = Playback(during: seq<Partial>, late: seq<Partial>, fails: bool)

  datatype PlayResult = Played | Cut | Raised

  /** A streamed reply: at most one filler, the default reply if the model stayed silent, which of them comes first,
      the playback of each sentence, where generation, producer and queue stand when the playback is torn down, and
      whether the teardown raises. */
  datatype Stream = Stream(
    filler: Option<string>,
    defaultReply: Option<string>,
    fillerFirst: bool,
    sentences: seq<Playback>,
    torn: Streaming.Reply,
    replyText: string,
    escapes: bool)

  /** What a streamed reply is: only an answer may be preceded by a filler, and only a re-voicing that is cut leaves
      no remainder. */
  datatype Speech = Answering | Revoicing | Parting

  datatype Handoff = Handoff(trigger: string, phrase: string, playback: Playback)

  /** A gated turn: how many personas were started before spawning raised (if it did), what was heard while
      the gate was awaited, the referees' results, the transfer detector, and the playbacks. */
  datatype GatedTurn = GatedTurn(
    spawnFails: Option<nat>,
    thinking: seq<Partial>,
    referees: seq<RefereeResult>,
    transferLlm: Option<Handoff>,
    phrase: Playback,
    reply: Stream)

  /** `elapsed` is the time since wrap-up started; `referee` the bypass referee's category, if it answered in time. */
  datatype WrapUpTurn = WrapUpTurn(reply: Stream, referee: Option<string>, elapsed: real, closing: Playback)

  /** The one category of the bypass referee that ends the call: "no question". */
  const WRAP_UP_HANGUP_CATEGORIES := {"\U{65E0}\U{95EE}\U{9898}"}

  /** The bypass referee found that the customer has nothing more to ask. */
  predicate Dismissed(t: WrapUpTurn, c: Config) {
    c.wrapUp.refereeEnabled && t.referee.Some? && t.referee.value in WRAP_UP_HANGUP_CATEGORIES
  }

  /** Below both limits of the wrap-up phase. */
  predicate Continues(rounds: nat, elapsed: real, c: Config) {
    rounds < c.wrapUp.maxRounds && elapsed < c.wrapUp.maxSeconds as real
  }

  /** How an exhausted wrap-up phase ends, with the limit that was reached first. */
  function Farewell(rounds: nat, c: Config): seq<Event> {
    [WrapUpCompleted(rounds >= c.wrapUp.maxRounds), Hangup(WrapUpDone, false)]
  }

  datatype Heard = RemoteHangup | Finals(texts: seq<string>) | NothingHeard(elapsedMs: int)

  /** One iteration of the turn loop. */
  datatype Round = Round(
    idle: seq<Partial>,
    heard: Heard,
    phrase: Playback,
    cheapTransfer: Option<Handoff>,
    gated: GatedTurn,
    wrapUp: WrapUpTurn)

  datatype Dial = DialRaises | NotConnected | Connected

  datatype CallScript = CallScript(
    dial: Dial,
    setupFails: bool,
    greeting: Option<string>,
    greetingPlayback: Playback,
    rounds: seq<Round>)

  /** The call is answered and a greeting is found for it. */
  predicate Greets(script: CallScript) {
    script.dial.Connected? && !script.setupFails && script.greeting.Some?
  }

  datatype Flow = Goes | Returns | Raises

  // ----- pure helpers ---------------------------------------------------------

  /** The text of a partial that the rules call a barge-in. */
  function BargeIn(p: Partial): Option<string> {
    if p.triggered then NonEmpty(Strip(p.text)) else None
  }

  function FirstBargeIn(partials: seq<Partial>): Option<string> {
    if partials == [] then None
    else if BargeIn(partials[0]).Some? then BargeIn(partials[0])
    else FirstBargeIn(partials[1..])
  }

  /** What the partial monitor, if it listens, makes of one playback while its task runs ... */
  function HeardDuring(armed: bool, p: Playback): Option<string> {
    if armed then FirstBargeIn(p.during) else None
  }

  /** ... and until the driver has resumed. */
  function HeardBy(armed: bool, p: Playback): Option<string> {
    if HeardDuring(armed, p).Some? then HeardDuring(armed, p) else if armed then FirstBargeIn(p.late) else None
  }

  /** How a reply goes: whether it is played to its end, the barge-in heard, whether that cancelled a playback, and
      how many sentences were played before the reply stopped. A failing sentence ends a reply quietly. */
  datatype Course = Course(fully: bool, hit: Option<string>, cut: bool, at: nat)

  function CourseOf(armed: bool, sentences: seq<Playback>): Course {
    if sentences == [] then Course(true, None, false, 0)
    else
      var p := sentences[0];
      if p.fails then Course(true, HeardBy(armed, p), HeardDuring(armed, p).Some?, 0)
      else if HeardDuring(armed, p).Some? then Course(false, HeardDuring(armed, p), true, 0)
      else After(HeardBy(armed, p), CourseOf(armed && HeardBy(armed, p).None?, sentences[1..]), 1)
  }

  /** The course of a reply of which `n` sentences were played already, `hit` having been heard meanwhile. */
  function After(hit: Option<string>, c: Course, n: nat): Course {
    c.(hit := if hit.Some? then hit else c.hit, at := n + c.at)
  }

  /** Nothing fails and nothing is heard. */
  predicate Undisturbed(sentences: seq<Playback>) {
    forall i :: 0 <= i < |sentences| ==>
      !sentences[i].fails && FirstBargeIn(sentences[i].during).None? && FirstBargeIn(sentences[i].late).None?
  }

  lemma {:induction false} DeafCourse(sentences: seq<Playback>)
    ensures CourseOf(false, sentences).fully && CourseOf(false, sentences).hit.None? && !CourseOf(false, sentences).cut
  {
    if sentences != [] && !sentences[0].fails {
      DeafCourse(sentences[1..]);
    }
  }

  lemma UndisturbedStep(sentences: seq<Playback>, i: nat)
    requires 0 < i <= |sentences|
    ensures Undisturbed(sentences[..i]) <==> Undisturbed(sentences[..1]) && Undisturbed(sentences[1..][..i - 1])
  {
    var first, later := sentences[..1], sentences[1..][..i - 1];
    assert sentences[..i] == first + later;
    if Undisturbed(first + later) {
      assert first[0] == (first + later)[0];
      forall k | 0 <= k < |later|
        ensures !later[k].fails && FirstBargeIn(later[k].during).None? && FirstBargeIn(later[k].late).None?
      {
        assert later[k] == (first + later)[1 + k];
      }
    }
  }

  /** A reply is cut at sentence `i` exactly if that is the first sentence that fails or hears anything, it does not
      fail, and the barge-in comes while it is being played. */
  lemma {:induction false} CutIff(sentences: seq<Playback>, i: nat)
    ensures !CourseOf(true, sentences).fully && CourseOf(true, sentences).at == i <==>
      && i < |sentences| && !sentences[i].fails && FirstBargeIn(sentences[i].during).Some?
      && Undisturbed(sentences[..i])
    decreases |sentences|
  {
    if sentences != [] {
      var p := sentences[0];
      if p.fails || HeardBy(true, p).Some? {
        DeafCourse(sentences[1..]);
        if 0 < i < |sentences| { UndisturbedStep(sentences, i); }
      } else if i > 0 {
        CutIff(sentences[1..], i - 1);
        if i < |sentences| { UndisturbedStep(sentences, i); }
      }
    }
  }

  function InterruptionLog(hit: Option<string>): seq<Event> {
    if hit.Some? then [Interruption(hit.value)] else []
  }

  /** `text or None`. */
  function NonEmpty(s: string): Option<string> {
    if s == "" then None else Some(s)
  }

  function Join(a: string, b: string): string {
    if a == "" then b else if b == "" then a else a + " " + b
  }

  /** The queued finals folded into one utterance. */
  function Combine(texts: seq<string>): string {
    if texts == [] then "" else Join(Strip(texts[0]), Combine(texts[1..]))
  }

  method CombineFinals(texts: seq<string>) returns (combined: string)
    ensures combined == Combine(texts)
  {
    combined := "";
    for i := 0 to |texts|
      invariant Join(combined, Combine(texts[i..])) == Combine(texts)
    {
      var text := Strip(texts[i]);
      assert texts[i..][1..] == texts[i + 1..];
      JoinAssociates(combined, text, Combine(texts[i + 1..]));
      combined := Join(combined, text);
    }
  }

  lemma JoinAssociates(a: string, b: string, c: string)
    ensures Join(Join(a, b), c) == Join(a, Join(b, c))
  {
    assert a + " " + b + " " + c == a + " " + (b + " " + c);
  }

  function EnabledPersonas(config: PipelineConfig): (r: seq<string>)
    ensures |r| <= 2
  {
    var cap := if config.fanoutCap < 1 then 1 else if config.fanoutCap > 3 then 3 else config.fanoutCap;
    config.personas[..if cap - 1 < |config.personas| then cap - 1 else |config.personas|]
  }

  predicate Distinct<T(==)>(s: seq<T>) {
    forall i, j :: 0 <= i < j < |s| ==> s[i] != s[j]
  }

  /** The speculative streams of a turn by route: `main` has id `base`, the personas the ids after it. A
      persona whose name is used again loses its entry. */
  function Candidates(base: nat, personas: seq<string>): map<Route, nat> {
    if personas == [] then map[Main := base]
    else Candidates(base, personas[..|personas| - 1])[Persona(personas[|personas| - 1]) := base + |personas|]
  }

  function Ids(base: nat, n: nat): (r: set<nat>)
    ensures forall id :: id in r <==> base <= id < base + n
  {
    if n == 0 then {} else Ids(base, n - 1) + {base + n - 1}
  }

  /** The streams that no candidate entry refers to. */
  function Leaked(base: nat, personas: seq<string>): set<nat> {
    Ids(base, 1 + |personas|) - Candidates(base, personas).Values
  }

  lemma {:induction false} CandidateIsLastOfItsName(base: nat, personas: seq<string>, r: Route)
    requires r in Candidates(base, personas)
    ensures var id := Candidates(base, personas)[r];
            if r.Main? then id == base
            else
              && r.Persona? && base < id <= base + |personas| && personas[id - base - 1] == r.name
              && forall j :: id - base <= j < |personas| ==> personas[j] != r.name
  {
    if personas != [] && r != Persona(personas[|personas| - 1]) {
      CandidateIsLastOfItsName(base, personas[..|personas| - 1], r);
    }
  }

  lemma {:induction false} CandidateRoutes(base: nat, personas: seq<string>)
    ensures Main in Candidates(base, personas)
    ensures forall j :: 0 <= j < |personas| ==> Persona(personas[j]) in Candidates(base, personas)
  {
    if personas != [] {
      CandidateRoutes(base, personas[..|personas| - 1]);
    }
  }

  /** Every started stream has an entry exactly when the persona names are distinct. */
  lemma LeakIffDuplicate(base: nat, personas: seq<string>)
    ensures Leaked(base, personas) == {} <==> Distinct(personas)
  {
    var m := Candidates(base, personas);
    CandidateRoutes(base, personas);
    forall r | r in m ensures r.Main? || (r.Persona? && base < m[r] <= base + |personas|) {
      CandidateIsLastOfItsName(base, personas, r);
    }
    if Distinct(personas) {
      forall id | id in Ids(base, 1 + |personas|) ensures id in m.Values {
        var r := if id == base then Main else Persona(personas[id - base - 1]);
        CandidateIsLastOfItsName(base, personas, r);
        assert m[r] == id;
      }
    } else {
      var i, j :| 0 <= i < j < |personas| && personas[i] == personas[j];
      var id := base + 1 + i;
      if id in m.Values {
        var r :| r in m && m[r] == id;
        CandidateIsLastOfItsName(base, personas, r);
        assert false;
      }
      assert id in Leaked(base, personas);
    }
  }

  /** The protection against continuous interruptions, under its listen-only strategy. */
  predicate ListensOnly(s: Session, c: Config) {
    s.interruptionRun >= c.maxInterruptions && c.listenOnly
  }

  /** An utterance worth a turn. */
  predicate Actionable(utterance: string, c: Config) {
    utterance != "" && utterance !in c.whitelist
  }

  /** The silence window of a main-phase round ran out. */
  predicate RanOut(round: Round, c: Config) {
    round.heard.NothingHeard? && round.heard.elapsedMs >= c.silence.thresholdMs
  }

  /** How many of these rounds are expired silence windows. */
  function Expired(rounds: seq<Round>, c: Config): nat {
    if rounds == [] then 0
    else Expired(rounds[..|rounds| - 1], c) + if RanOut(rounds[|rounds| - 1], c) then 1 else 0
  }

  lemma ExpiredOne(round: Round, c: Config)
    ensures Expired([round], c) == if RanOut(round, c) then 1 else 0
  {
    assert [round][..0] == [];
  }

  lemma ExpiredStep(rounds: seq<Round>, i: nat, c: Config)
    requires i < |rounds|
    ensures Expired(rounds[..i + 1], c) == Expired(rounds[..i], c) + Expired([rounds[i]], c)
  {
    assert rounds[..i + 1][..i] == rounds[..i];
    ExpiredOne(rounds[i], c);
  }

  function Max(a: int, b: int): int { if a > b then a else b }

  // ----- the session ----------------------------------------------------------

  /** The fields of a call session. */
  datatype Session = Session(
    state: CallStatus,
    history: History,
    transcript: seq<Event>,
    dialog: seq<Turn>,
    hangupCause: Option<Cause>,
    silenceCount: nat,
    interruptionRun: nat,
    restructureRun: nat,
    wrapUpRounds: nat,
    inWrapUp: bool,
    speaking: bool,
    signaled: bool,
    inProcessing: bool,
    monitorsOn: bool,
    remainder: Option<string>,
    eager: set<nat>,
    spawned: nat)

  /** Bookkeeping for the proofs: the record of the transcript, the barge-ins the driver has accounted
      for, and the playbacks that were cancelled. */
  datatype Account = Account(log: Record, absorbed: nat, cuts: nat)

  const FRESH := Session(Init, [], [], [], None, 0, 0, 0, 0, false, false, false, false, false, None, {}, 0)

  /** The log is the one of the transcript, which is in order, and the dialog is its projection. */
  ghost predicate Recorded(transcript: seq<Event>, dialog: seq<Turn>, log: Record, maxActivations: int) {
    log == Replay(transcript, maxActivations) && log.ok && dialog == log.dialog
  }

  /** The status history is a legal path that leads to the current status. */
  ghost predicate OnPath(history: History, state: CallStatus) {
    LegalPath(history) && StatusAfter(history) == state
  }

  /** The barge-in latch: every interruption is absorbed once or still latched, it cuts at most one
      playback, and there is none before the greeting is over. */
  ghost predicate Latched(signaled: bool, monitorsOn: bool, interruptions: nat, greetings: nat, absorbed: nat, cuts: nat) {
    && interruptions == absorbed + (if signaled then 1 else 0)
    && cuts <= interruptions
    && (if monitorsOn then greetings == 1 else interruptions == 0)
  }

  /** Silence activations and wrap-up rounds stay within their limits. */
  ghost predicate Paced(inWrapUp: bool, rounds: nat, silenceCount: nat, wrapUps: nat, activations: nat, maxRounds: int) {
    && wrapUps == (if inWrapUp then 1 else 0)
    && silenceCount <= activations
    && rounds <= Max(1, maxRounds) && (rounds > 0 ==> inWrapUp)
  }

  /** A remainder is a non-empty trimmed text. */
  predicate Usable(rest: Option<string>) {
    rest.Some? ==> rest.value != "" && Trimmed(rest.value)
  }

  /** What holds at every await of the call. */
  ghost predicate Consistent(s: Session, a: Account, c: Config) {
    && Recorded(s.transcript, s.dialog, a.log, c.silence.maxActivations)
    && OnPath(s.history, s.state)
    && Latched(s.signaled, s.monitorsOn, a.log.interruptions, a.log.greetings, a.absorbed, a.cuts)
    && Paced(s.inWrapUp, s.wrapUpRounds, s.silenceCount, a.log.wrapUps, a.log.activations, c.wrapUp.maxRounds)
    && Usable(s.remainder) && s.restructureRun <= Max(0, c.pipeline.maxContinuousRestructure)
    && Below(s.eager, s.spawned)
  }

  predicate Below(ids: set<nat>, bound: nat) {
    forall id :: id in ids ==> id < bound
  }

  /** The call goes on. */
  ghost predicate Live(s: Session, a: Account, c: Config) {
    Consistent(s, a, c) && a.log.hangups == 0 && s.state != End
  }

  /** In the conversation, with nothing being generated for the gate or played. */
  ghost predicate Settled(s: Session, a: Account, c: Config) {
    && Live(s, a, c) && s.state == InCall && s.monitorsOn && !s.speaking && !s.inProcessing
    && a.log.activations == s.silenceCount
    && a.log.handoffs == 0 && a.log.marked == 0 && a.log.completed == 0
    && s.wrapUpRounds < Max(1, c.wrapUp.maxRounds)
  }

  /** Between turns: settled, and no speculative generation was left running. */
  ghost predicate Listening(s: Session, a: Account, c: Config) {
    Settled(s, a, c) && Tidy(s, c)
  }

  /** The call is over: END, a cause, and the hangup as the last event. */
  ghost predicate Ended(s: Session, a: Account, c: Config) {
    && Consistent(s, a, c) && s.state == End && s.hangupCause.Some?
    && s.transcript != [] && s.transcript[|s.transcript| - 1].Hangup?
    && Fits(s.hangupCause.value, s.transcript[|s.transcript| - 1].reason)
  }

  /** The monitor listens: a reply is being generated or played, and no barge-in is latched. */
  predicate Armed(s: Session) {
    s.monitorsOn && (s.inProcessing || s.speaking) && !s.signaled
  }

  /** A playback begun now can be barged in on. */
  predicate Listens(s: Session, interruptible: bool) {
    s.monitorsOn && interruptible && !s.signaled
  }

  /** The same streams and the same place on the silence ladder. */
  predicate SameResources(before: Session, after: Session) {
    after.eager == before.eager && after.spawned == before.spawned && after.silenceCount == before.silenceCount
  }

  /** With distinct persona labels no speculative generation is left running. */
  predicate Tidy(s: Session, c: Config) {
    Distinct(EnabledPersonas(c.pipeline)) ==> s.eager == {}
  }

  predicate EndsWith<T(==)>(s: seq<T>, tail: seq<T>) {
    |tail| <= |s| && s[|s| - |tail|..] == tail
  }

  function Write(s: Session, e: Event): Session {
    s.(transcript := s.transcript + [e],
       dialog := Spoken(s.dialog, e))
  }

  function Latch(s: Session, hit: Option<string>): Session {
    if hit.None? then s else Write(s, Interruption(hit.value)).(signaled := true)
  }

  function Charge(a: Account, e: Event, c: Config): Account {
    a.(log := Advance(a.log, e, c.silence.maxActivations))
  }

  function LatchCharge(a: Account, hit: Option<string>, c: Config): Account {
    if hit.None? then a else Charge(a, Interruption(hit.value), c)
  }

  function Record1(a: Account, cut: bool): Account {
    if cut then a.(cuts := a.cuts + 1) else a
  }

  lemma LatchKeeps(s: Session, a: Account, c: Config, hit: Option<string>, cut: bool)
    requires Live(s, a, c) && (hit.Some? ==> s.monitorsOn && !s.signaled) && (cut ==> hit.Some?)
    ensures Live(Latch(s, hit), Record1(LatchCharge(a, hit, c), cut), c)
  {
  }

  /** Nothing but barge-ins and asides was recorded. */
  predicate Quiet(before: Record, after: Record) {
    after == before.(interruptions := after.interruptions, last := after.last)
  }

  /** The events that move no counter of the session. */
  predicate Plain(e: Event) {
    !e.Interruption? && !e.SilenceActivation? && !e.WrapUpStarted? && !e.Hangup? && !e.Greeting?
  }

  lemma WriteKeeps(s: Session, a: Account, c: Config, e: Event)
    requires Live(s, a, c) && Plain(e) && Admissible(a.log, e, c.silence.maxActivations)
    ensures Live(Write(s, e), Charge(a, e, c), c)
  {
    assert Write(s, e).transcript[..|s.transcript|] == s.transcript;
  }

  /** The session once the greeting was played. */
  function Opened(script: CallScript): Session
    requires script.greeting.Some?
  {
    Write(Move(FRESH, InCall), Greeting(script.greeting.value)).(monitorsOn := true)
  }

  function Move(s: Session, next: CallStatus): Session {
    s.(state := next, history := s.history + [(s.state, next)])
  }

  lemma MoveKeeps(s: Session, a: Account, c: Config, next: CallStatus)
    requires Live(s, a, c) && Legal(s.state, next) && next != End
    ensures Live(Move(s, next), a, c)
  {
  }

  lemma FinishEnds(s: Session, a: Account, c: Config, cause: Cause, e: Event)
    requires Live(s, a, c) && e.Hangup? && Fits(cause, e.reason)
    requires Admissible(a.log, e, c.silence.maxActivations)
    ensures Ended(Write(Move(s, End).(hangupCause := Some(cause)), e), Charge(a, e, c), c)
  {
    assert (s.transcript + [e])[..|s.transcript|] == s.transcript;
  }

  function FillerAside(mode: Speech, st: Stream): Option<Event> {
    if mode.Answering? && st.filler.Some? then Some(Filler(st.filler.value)) else None
  }

  function DefaultAside(st: Stream): Option<Event> {
    if st.defaultReply.Some? then Some(DefaultReplyUsed(st.defaultReply.value)) else None
  }

  function FirstAside(mode: Speech, st: Stream): Option<Event> {
    if st.fillerFirst then FillerAside(mode, st) else DefaultAside(st)
  }

  function SecondAside(mode: Speech, st: Stream): Option<Event> {
    if st.fillerFirst then DefaultAside(st) else FillerAside(mode, st)
  }

  function Optional(e: Option<Event>): seq<Event> {
    if e.Some? then [e.value] else []
  }

  function WriteSome(s: Session, e: Option<Event>): Session {
    if e.Some? then Write(s, e.value) else s
  }

  function ChargeSome(a: Account, e: Option<Event>, c: Config): Account {
    if e.Some? then Charge(a, e.value, c) else a
  }

  function AsideWrites(s: Session, mode: Speech, st: Stream): Session {
    WriteSome(WriteSome(s, FirstAside(mode, st)), SecondAside(mode, st))
  }

  function AsideCharge(a: Account, mode: Speech, st: Stream, c: Config): Account {
    ChargeSome(ChargeSome(a, FirstAside(mode, st), c), SecondAside(mode, st), c)
  }

  predicate IsAside(e: Option<Event>) {
    e.Some? ==> e.value.Filler? || e.value.DefaultReplyUsed?
  }

  lemma AsideKeeps(s: Session, a: Account, c: Config, e: Option<Event>)
    requires Live(s, a, c) && a.log.utterances > 0 && IsAside(e)
    ensures Live(WriteSome(s, e), ChargeSome(a, e, c), c) && Quiet(a.log, ChargeSome(a, e, c).log)
  {
    if e.Some? { WriteKeeps(s, a, c, e.value); }
  }

  lemma AsidesKeep(s: Session, a: Account, c: Config, mode: Speech, st: Stream)
    requires Live(s, a, c) && a.log.utterances > 0
    ensures Live(AsideWrites(s, mode, st), AsideCharge(a, mode, st, c), c)
    ensures Quiet(a.log, AsideCharge(a, mode, st, c).log)
  {
    AsideKeeps(s, a, c, FirstAside(mode, st));
    AsideKeeps(WriteSome(s, FirstAside(mode, st)), ChargeSome(a, FirstAside(mode, st), c), c, SecondAside(mode, st));
  }

  /** What a streamed reply records before its own event. */
  function StreamEvents(mode: Speech, armed: bool, st: Stream): seq<Event> {
    Optional(FirstAside(mode, st)) + Optional(SecondAside(mode, st)) + InterruptionLog(CourseOf(armed, st.sentences).hit)
  }

  /** A barge-in was latched before this playback or is by its end. */
  predicate StaysLatched(signaled: bool, st: Stream) {
    signaled || CourseOf(!signaled, st.sentences).hit.Some?
  }

  /** The session after the playback of a reply. */
  function Streamed(s: Session, mode: Speech, st: Stream): Session {
    s.(transcript := s.transcript + StreamEvents(mode, !s.signaled, st),
       signaled := StaysLatched(s.signaled, st),
       remainder := if StreamResult(!s.signaled, st).Cut? && !mode.Revoicing? then Rest(st) else s.remainder)
  }

  /** What a gated turn does. */
  datatype Report =
    | Failed
    | Aborted
    | HandedOff
    | HungUp
    | Capped
    | Revoiced(text: string, cut: bool)
    | NothingToRevoice
    | Spoke(route: Route, cut: bool)

  // ----- where a turn goes, from its inputs alone ------------------------------

  /** The route the gate picks, given the remainder pending before it. */
  function Choice(t: GatedTurn, c: Config, remainder: Option<string>): Selection {
    SelectRoute(TurnVerdict(t.referees, c.pipeline, remainder).verdict, c.pipeline)
  }

  /** The remainder once the gate has spoken: a substantive interruption drops it. */
  function AfterHygiene(t: GatedTurn, c: Config, remainder: Option<string>): Option<string> {
    if !TurnVerdict(t.referees, c.pipeline, remainder).verdict.Restructure? && c.pipeline.autoRestructure then None
    else remainder
  }

  /** A barge-in was latched before the gate resolved. */
  predicate Aborts(s: Session, t: GatedTurn) {
    s.signaled || FirstBargeIn(t.thinking).Some?
  }

  /** The transfer detector acts, unless the gate itself selected a transfer. */
  predicate Detected(sel: Selection, t: GatedTurn) {
    t.transferLlm.Some? && !(sel.ToolRoute? && sel.tool.TransferTool?)
  }

  /** A barge-in cuts this reply, when none is latched yet. */
  predicate ReplyCut(st: Stream) {
    !CourseOf(true, st.sentences).fully
  }

  predicate IsCapped(s: Session, c: Config) {
    s.restructureRun >= c.pipeline.maxContinuousRestructure
  }

  /** What a restructure turn would re-voice. */
  function RevoiceSource(s: Session, fromRemainder: bool): Option<string> {
    if fromRemainder && s.remainder.Some? then s.remainder else LastReply(s.dialog)
  }

  function HandoffFlow(h: Handoff): Flow {
    if h.phrase == "" || !h.playback.fails then Returns else Raises
  }

  function RestructureFlow(s: Session, fromRemainder: bool, phrase: Playback, st: Stream, c: Config): Flow {
    if IsCapped(s, c) then if c.pipeline.defaultReplies != [] && phrase.fails then Raises else Goes
    else if RevoiceSource(s, fromRemainder).None? then Goes
    else if st.escapes then Raises else Goes
  }

  function RestructureReport(s: Session, fromRemainder: bool, st: Stream, c: Config): Report {
    if IsCapped(s, c) then Capped
    else if RevoiceSource(s, fromRemainder).None? then NothingToRevoice
    else Revoiced(RevoiceSource(s, fromRemainder).value, ReplyCut(st))
  }

  function ToolFlow(sel: Selection, phrase: Playback): Flow
    requires sel.ToolRoute?
  {
    if sel.tool.HangupTool? && sel.closingPhrase.Some? && phrase.fails then Raises else Returns
  }

  /** The session as the selected route finds it. */
  function AtGate(s: Session, t: GatedTurn, c: Config): Session {
    s.(remainder := AfterHygiene(t, c, s.remainder))
  }

  function RouteFlow(s: Session, t: GatedTurn, c: Config): Flow {
    var sel := Choice(t, c, s.remainder);
    if Detected(sel, t) then HandoffFlow(t.transferLlm.value)
    else if sel.ToolRoute? then ToolFlow(sel, t.phrase)
    else if sel.route.Revoice? then RestructureFlow(AtGate(s, t, c), sel.fromRemainder, t.phrase, t.reply, c)
    else if t.reply.escapes then Raises else Goes
  }

  function RouteReport(s: Session, t: GatedTurn, c: Config): Report {
    var sel := Choice(t, c, s.remainder);
    if Detected(sel, t) then HandedOff
    else if sel.ToolRoute? then if sel.tool.HangupTool? then HungUp else HandedOff
    else if sel.route.Revoice? then RestructureReport(AtGate(s, t, c), sel.fromRemainder, t.reply, c)
    else Spoke(sel.route, ReplyCut(t.reply))
  }

  /** Whether a gated turn goes on, ends the call or raises ... */
  function GatedFlow(s: Session, t: GatedTurn, c: Config): Flow {
    if t.spawnFails.Some? then Raises else if Aborts(s, t) then Goes else RouteFlow(s, t, c)
  }

  /** ... and what it does unless it raises. */
  function GatedReport(s: Session, t: GatedTurn, c: Config): Report {
    if Aborts(s, t) then Aborted else RouteReport(s, t, c)
  }

  /** A barge-in cuts the farewell; one latched before cannot. */
  predicate FarewellCut(s: Session, t: WrapUpTurn) {
    !CourseOf(!s.signaled, t.reply.sentences).fully
  }

  function WrapUpFlow(s: Session, t: WrapUpTurn, c: Config): Flow {
    if t.reply.escapes then Raises
    else if FarewellCut(s, t) then Goes
    else if Dismissed(t, c) then Returns
    else if Continues(s.wrapUpRounds + 1, t.elapsed, c) then Goes
    else if t.closing.fails then Raises else Returns
  }

  /** A user turn, once the utterance is recorded. */
  function UserFlow(s: Session, round: Round, c: Config): Flow {
    if round.cheapTransfer.Some? then HandoffFlow(round.cheapTransfer.value)
    else if ListensOnly(s, c) then if round.phrase.fails then Raises else Goes
    else if s.inWrapUp then WrapUpFlow(s, round.wrapUp, c)
    else GatedFlow(s, round.gated, c)
  }

  // ----- what a turn that goes on leaves behind --------------------------------

  /** A completed restructure turn: capped turns keep the remainder and reset the run, the others re-voice
      the remainder they were asked for, or what the assistant said last. */
  ghost predicate RestructureOutcome(before: Session, after: Session, fromRemainder: bool, phrase: Playback, st: Stream, c: Config) {
    match RestructureReport(before, fromRemainder, st, c)
    case Capped =>
      && after.transcript == before.transcript + InterruptionLog(HeardInPhrase(before, phrase, c))
      && (after.signaled <==> before.signaled || HeardInPhrase(before, phrase, c).Some?)
      && after.restructureRun == 0 && after.remainder == before.remainder
      && after.interruptionRun == before.interruptionRun
    case Revoiced(text, cut) =>
      && after.restructureRun == before.restructureRun + 1
      && after.remainder == (if fromRemainder then None else before.remainder)
      && after.interruptionRun == before.interruptionRun + (if cut then 1 else 0)
      && (after.signaled <==> !cut && StaysLatched(before.signaled, st))
      && after.transcript == before.transcript + StreamEvents(Speech.Revoicing, !before.signaled, st) + [AiReply(st.replyText, false, false)]
    case _ =>
      && after.transcript == before.transcript && after.signaled == before.signaled
      && after.restructureRun == before.restructureRun && after.interruptionRun == before.interruptionRun
      && after.remainder == (if fromRemainder then None else before.remainder)
  }

  /** What is heard during the phrase of a capped restructure, if there is one. */
  function HeardInPhrase(s: Session, phrase: Playback, c: Config): Option<string> {
    if c.pipeline.defaultReplies != [] then HeardBy(!s.signaled, phrase) else None
  }

  /** What a dialogue turn records of its reply: only one played to its end counts as a closing, and starts wrap-up. */
  function ReplyEvents(sel: Selection, text: string, cut: bool): seq<Event>
    requires sel.Dialogue?
  {
    if cut then [AiReply(text, false, false)]
    else
      [AiReply(text, sel.route.Closing?, sel.route.Closing?)] +
      if sel.thenState == Some(WrappingUp) then [WrapUpStarted, GoalAchieved(if sel.route.Closing? then sel.goalType else "")] else []
  }

  /** A reply that was released: cut, it leaves its rest behind; played, both runs are over and wrap-up may begin. */
  ghost predicate ReplyOutcome(before: Session, after: Session, sel: Selection, st: Stream)
    requires sel.Dialogue?
  {
    && after.transcript == before.transcript + StreamEvents(Answering, !before.signaled, st) + ReplyEvents(sel, st.replyText, ReplyCut(st))
    && (after.signaled <==> !ReplyCut(st) && StaysLatched(before.signaled, st))
    && if ReplyCut(st) then
         && !after.inWrapUp && after.remainder == Rest(st)
         && after.interruptionRun == before.interruptionRun + 1 && after.restructureRun == before.restructureRun
       else
         && after.interruptionRun == 0 && after.restructureRun == 0 && after.remainder == before.remainder
         && (after.inWrapUp <==> sel.thenState == Some(WrappingUp))
  }

  /** A turn aborted at the gate: the barge-in is logged and absorbed, nothing else happens. */
  ghost predicate AbortOutcome(before: Session, after: Session, t: GatedTurn) {
    && after.transcript == before.transcript + InterruptionLog(if before.signaled then None else FirstBargeIn(t.thinking))
    && !after.signaled && !after.inWrapUp && after.remainder == before.remainder
    && after.interruptionRun == before.interruptionRun + 1 && after.restructureRun == before.restructureRun
  }

  /** A gated turn that goes on to the next one. */
  ghost predicate GatedOutcome(before: Session, after: Session, t: GatedTurn, c: Config) {
    var sel := Choice(t, c, before.remainder);
    if Aborts(before, t) then AbortOutcome(before, after, t)
    else
      && sel.Dialogue? && t.transferLlm.None?
      && if sel.route.Revoice? then !after.inWrapUp && RestructureOutcome(AtGate(before, t, c), after, sel.fromRemainder, t.phrase, t.reply, c)
         else ReplyOutcome(AtGate(before, t, c), after, sel, t.reply)
  }

  /** A wrap-up turn that goes on: a cut farewell costs no round, a played one costs one. */
  ghost predicate WrapUpOutcome(before: Session, after: Session, t: WrapUpTurn) {
    && after.transcript == before.transcript + StreamEvents(Parting, !before.signaled, t.reply) + [AiReply(t.reply.replyText, false, true)]
    && (after.signaled <==> !FarewellCut(before, t) && StaysLatched(before.signaled, t.reply))
    && after.inWrapUp && after.restructureRun == before.restructureRun
    && if FarewellCut(before, t) then
         && after.wrapUpRounds == before.wrapUpRounds
         && after.interruptionRun == before.interruptionRun + 1 && after.remainder == Rest(t.reply)
       else
         && after.wrapUpRounds == before.wrapUpRounds + 1
         && after.interruptionRun == before.interruptionRun && after.remainder == before.remainder
  }

  /** The session after a farewell and its record. */
  function Parted(s: Session, t: WrapUpTurn): Session {
    Write(Streamed(s, Parting, t.reply), AiReply(t.reply.replyText, false, true))
  }

  lemma PartedCut(s: Session, t: WrapUpTurn)
    requires s.inWrapUp && StreamResult(!s.signaled, t.reply).Cut?
    ensures WrapUpOutcome(s, Parted(s, t).(signaled := false, interruptionRun := s.interruptionRun + 1), t)
  {
  }

  lemma PartedPlayed(s: Session, t: WrapUpTurn)
    requires s.inWrapUp && StreamResult(!s.signaled, t.reply).Played?
    ensures WrapUpOutcome(s, Parted(s, t).(wrapUpRounds := s.wrapUpRounds + 1), t)
  {
  }

  /** A user turn that goes on, from the recorded utterance to the next listening. */
  ghost predicate TurnOutcome(before: Session, after: Session, round: Round, c: Config) {
    && round.cheapTransfer.None?
    && if ListensOnly(before, c) then after == before.(interruptionRun := 0)
       else if before.inWrapUp then WrapUpOutcome(before, after, round.wrapUp)
       else GatedOutcome(before, after, round.gated, c)
  }

  /** The session after a silence phrase was played: the count has risen, and a barge-in on it stays latched. */
  function Reactivated(s: Session, phrase: string, p: Playback): Session {
    Latch(Write(s, SilenceActivation(phrase, s.silenceCount)), HeardBy(!s.signaled, p)).(silenceCount := s.silenceCount + 1)
  }

  function SilentFlow(s: Session, elapsedMs: int, p: Playback, c: Config): Flow {
    match EvaluateSilence(elapsedMs, s.silenceCount, c.silence, s.inWrapUp)
    case Wait => Goes
    case Activate(_) => if p.fails then Raises else Goes
    case HangUp(phrase) => if phrase != "" && p.fails then Raises else Returns
  }

  /** A silent round that goes on: the window is still open, or the ladder was climbed by a rung. */
  predicate SilentOutcome(before: Session, after: Session, elapsedMs: int, p: Playback, c: Config) {
    match EvaluateSilence(elapsedMs, before.silenceCount, c.silence, before.inWrapUp)
    case Wait => after == before
    case Activate(phrase) => after == Reactivated(before, phrase, p)
    case HangUp(_) => false
  }

  /** A silence leaves the pending line alone, and a barge-in on its phrase latched. */
  lemma SilenceKeepsTheLine(before: Session, after: Session, elapsedMs: int, p: Playback, c: Config)
    requires SilentOutcome(before, after, elapsedMs, p, c)
    ensures after.remainder == before.remainder && after.inWrapUp == before.inWrapUp
    ensures after.signaled <==>
      before.signaled || (elapsedMs >= WindowMs(c.silence, before.inWrapUp) && HeardBy(true, p).Some?)
  {
  }

  /** The last thing the assistant said. */
  function LastReply(dialog: seq<Turn>): Option<string> {
    if dialog == [] then None
    else if !dialog[|dialog| - 1].fromUser && Strip(dialog[|dialog| - 1].text) != "" then Some(dialog[|dialog| - 1].text)
    else LastReply(dialog[..|dialog| - 1])
  }

  method FindLastReply(dialog: seq<Turn>) returns (text: Option<string>)
    ensures text == LastReply(dialog)
  {
    var i := |dialog|;
    assert dialog[..i] == dialog;
    while i > 0
      invariant 0 <= i <= |dialog|
      invariant LastReply(dialog) == LastReply(dialog[..i])
    {
      i := i - 1;
      assert dialog[..i + 1][..i] == dialog[..i];
      if !dialog[i].fromUser && Strip(dialog[i].text) != "" { return Some(dialog[i].text); }
    }
    text := None;
  }

  function Spawn(s: Session, n: nat): Session {
    s.(eager := s.eager + Ids(s.spawned, n), spawned := s.spawned + n)
  }

  lemma SpawnOneMore(s: Session, n: nat)
    ensures Spawn(Spawn(s, n), 1) == Spawn(s, n + 1)
  {
    assert Ids(s.spawned, n) + Ids(s.spawned + n, 1) == Ids(s.spawned, n + 1);
  }

  lemma CandidateOneMore(base: nat, personas: seq<string>, i: nat)
    requires i < |personas|
    ensures Candidates(base, personas[..i])[Persona(personas[i]) := base + 1 + i] == Candidates(base, personas[..i + 1])
  {
    assert personas[..i + 1][..i] == personas[..i];
  }

  lemma SpawnKeeps(s: Session, a: Account, c: Config, n: nat)
    requires Live(s, a, c)
    ensures Live(Spawn(s, n), a, c)
  {
  }

  lemma CancelLeavesLeaked(running: set<nat>, base: nat, personas: seq<string>)
    requires Below(running, base)
    ensures running + Ids(base, 1 + |personas|) - Candidates(base, personas).Values == running + Leaked(base, personas)
  {
    var m := Candidates(base, personas);
    forall r | r in m ensures base <= m[r] {
      CandidateIsLastOfItsName(base, personas, r);
    }
  }

  /** Starting candidates changes nothing about where the turn goes ... */
  lemma SpawnedTurn(s: Session, n: nat, t: GatedTurn, c: Config)
    ensures RouteFlow(Spawn(s, n), t, c) == RouteFlow(s, t, c) && RouteReport(Spawn(s, n), t, c) == RouteReport(s, t, c)
    ensures Aborts(Spawn(s, n), t) == Aborts(s, t)
  {
  }

  /** ... nor about what it leaves behind. */
  lemma SpawnedOutcome(s: Session, n: nat, after: Session, t: GatedTurn, c: Config)
    ensures GatedOutcome(Spawn(s, n), after, t, c) == GatedOutcome(s, after, t, c)
  {
  }

  /** The text captured at the teardown of a cut reply. */
  function Unspoken(st: Stream): string {
    Streaming.TextOf(Streaming.Captured(st.torn))
  }

  /** What a cut leaves to be re-voiced. */
  function Rest(st: Stream): Option<string> {
    NonEmpty(Strip(Unspoken(st)))
  }

  lemma RestIsUsable(st: Stream)
    ensures Usable(Rest(st))
  {
    var a, b := StripSpec(Unspoken(st));
  }

  lemma RestKeeps(s: Session, a: Account, c: Config, rest: Option<string>)
    requires Live(s, a, c) && Usable(rest)
    ensures Live(s.(remainder := rest), a, c)
  {
  }

  /** How a streamed reply comes out. */
  function StreamResult(armed: bool, st: Stream): PlayResult {
    if st.escapes then Raised else if CourseOf(armed, st.sentences).fully then Played else Cut
  }

  lemma {:induction false} CourseHits(armed: bool, sentences: seq<Playback>)
    ensures var k := CourseOf(armed, sentences);
      (!k.fully ==> k.cut) && (k.cut ==> k.hit.Some?) && (k.hit.Some? ==> armed)
  {
    if sentences != [] && !sentences[0].fails {
      CourseHits(armed && HeardBy(armed, sentences[0]).None?, sentences[1..]);
    }
  }

  lemma WriteSomeIs(s: Session, e: Option<Event>)
    requires IsAside(e)
    ensures WriteSome(s, e) == s.(transcript := s.transcript + Optional(e))
  {
  }

  lemma LatchIs(s: Session, hit: Option<string>)
    ensures Latch(s, hit) == s.(transcript := s.transcript + InterruptionLog(hit), signaled := s.signaled || hit.Some?)
  {
  }

  lemma InOneGo<T>(t: seq<T>, a: seq<T>, b: seq<T>, c: seq<T>)
    ensures t + a + b + c == t + (a + b + c)
  {
  }

  lemma StreamedIs(s: Session, mode: Speech, st: Stream)
    requires s.monitorsOn
    ensures Streamed(s, mode, st) == Latch(AsideWrites(s, mode, st), CourseOf(Listens(s, true), st.sentences).hit)
      .(remainder := if StreamResult(!s.signaled, st).Cut? && !mode.Revoicing? then Rest(st) else s.remainder)
    ensures StreamResult(!s.signaled, st).Cut? ==> Streamed(s, mode, st).signaled
  {
    var hit := CourseOf(!s.signaled, st.sentences).hit;
    var first, second := FirstAside(mode, st), SecondAside(mode, st);
    CourseHits(!s.signaled, st.sentences);
    WriteSomeIs(s, first);
    WriteSomeIs(WriteSome(s, first), second);
    LatchIs(AsideWrites(s, mode, st), hit);
    InOneGo(s.transcript, Optional(first), Optional(second), InterruptionLog(hit));
  }

  lemma PrefixThen<T>(a: seq<T>, b: seq<T>, tail: seq<T>)
    requires a <= b
    ensures a <= b + tail && EndsWith(b + tail, tail)
  {
  }

  /** A streamed reply keeps the session live, whatever was heard during it. */
  lemma StreamKeeps(s: Session, a: Account, c: Config, mode: Speech, st: Stream, hit: Option<string>, cut: bool)
    requires Live(s, a, c) && a.log.utterances > 0
    requires hit.Some? ==> s.monitorsOn && !s.signaled
    requires cut ==> hit.Some?
    ensures var a' := Record1(LatchCharge(AsideCharge(a, mode, st, c), hit, c), cut);
            Live(Latch(AsideWrites(s, mode, st), hit), a', c) && Quiet(a.log, a'.log)
  {
    AsidesKeep(s, a, c, mode, st);
    LatchKeeps(AsideWrites(s, mode, st), AsideCharge(a, mode, st, c), c, hit, cut);
  }

  // ----- what the invariants mean for a call -----------------------------------

  function Interruptions(t: seq<Event>): nat {
    if t == [] then 0 else Interruptions(t[..|t| - 1]) + if t[|t| - 1].Interruption? then 1 else 0
  }

  lemma {:induction false} InterruptionsAreLogged(t: seq<Event>, maxActivations: int)
    ensures Interruptions(t) == Replay(t, maxActivations).interruptions
  {
    if t != [] {
      InterruptionsAreLogged(t[..|t| - 1], maxActivations);
    }
  }

  lemma {:induction false} NoWarnings(t: seq<Event>, maxActivations: int, i: nat)
    requires WellOrdered(t, maxActivations) && i < |t|
    ensures !t[i].StateWarning?
  {
    WellOrderedAt(t, maxActivations, i);
  }

  /** At every await of every call: legal status path, no warning, a conserved barge-in latch, and every counter within
      its limit. */
  lemma LiveCall(s: Session, a: Account, c: Config)
    requires Consistent(s, a, c)
    ensures LegalPath(s.history) && |s.history| <= 3
    ensures forall i :: 0 <= i < |s.transcript| ==> !s.transcript[i].StateWarning?
    ensures Interruptions(s.transcript) == a.absorbed + (if s.signaled then 1 else 0) >= a.cuts
    ensures s.dialog == DialogOf(s.transcript)
    ensures s.wrapUpRounds <= Max(1, c.wrapUp.maxRounds)
    ensures s.restructureRun <= Max(0, c.pipeline.maxContinuousRestructure)
    ensures s.remainder.Some? ==> s.remainder.value != "" && Strip(s.remainder.value) == s.remainder.value
    ensures s.silenceCount <= |Activations(s.transcript)| <= Max(0, c.silence.maxActivations)
  {
    ActivationsCountUp(s.transcript, c.silence.maxActivations);
    if s.remainder.Some? { StripOfTrimmed(s.remainder.value); }
    LegalPathIsShort(s.history);
    InterruptionsAreLogged(s.transcript, c.silence.maxActivations);
    DialogIsProjection(s.transcript, c.silence.maxActivations);
    forall i | 0 <= i < |s.transcript| ensures !s.transcript[i].StateWarning? {
      NoWarnings(s.transcript, c.silence.maxActivations, i);
    }
  }

  /** A finished call: END reached by a legal path, a cause that fits, and exactly one hangup, the last event. */
  lemma EndedCall(s: Session, a: Account, c: Config)
    requires Ended(s, a, c)
    ensures LegalPath(s.history) && s.history != [] && s.history[|s.history| - 1].1 == End
    ensures forall i :: 0 <= i < |s.transcript| ==> (s.transcript[i].Hangup? <==> i == |s.transcript| - 1)
    ensures s.hangupCause.Some? && Fits(s.hangupCause.value, s.transcript[|s.transcript| - 1].reason)
  {
    forall i | 0 <= i < |s.transcript| - 1 ensures !s.transcript[i].Hangup? {
      HangupIsLast(s.transcript, c.silence.maxActivations, i, |s.transcript| - 1);
    }
  }

  // ----- resuming an interrupted line ------------------------------------------

  /** A re-voiced text is the captured remainder exactly if the gate resumed the interrupted line; the only other way
      to re-voice is the literal "restructure" as fail-open route, which takes the last reply. */
  lemma RevoicedIsTheRemainder(before: Session, after: Session, t: GatedTurn, c: Config)
    requires GatedOutcome(before, after, t, c) && GatedReport(before, t, c).Revoiced?
    ensures var text := GatedReport(before, t, c).text;
      if Resumes(t.referees, c.pipeline, before.remainder)
      then before.remainder == Some(text) && after.remainder.None?
      else c.pipeline.failOpenRoute == Some(Revoice) && Some(text) == LastReply(before.dialog)
  {
    RestructureRouteIff(t.referees, c.pipeline, before.remainder);
  }

  /** The reply now spoken replaces the pending remainder by its own rest. */
  predicate Recaptured(s: Session, round: Round, c: Config) {
    if s.inWrapUp then FarewellCut(s, round.wrapUp)
    else
      var sel := Choice(round.gated, c, s.remainder);
      !Aborts(s, round.gated) && sel.Dialogue? && !sel.route.Revoice? && ReplyCut(round.gated.reply)
  }

  function NewRest(s: Session, round: Round): Option<string> {
    if s.inWrapUp then Rest(round.wrapUp.reply) else Rest(round.gated.reply)
  }

  /** A line pending before this turn is still pending after it: the turn only cued, was aborted at the gate, was a
      farewell played to its end, or was a resume that is capped; with the switch off, everything but a cut keeps it. */
  predicate LineSurvives(s: Session, round: Round, c: Config) {
    ListensOnly(s, c) || (!Recaptured(s, round, c) && LeavesTheLine(s, round.gated, c))
  }

  predicate LeavesTheLine(s: Session, t: GatedTurn, c: Config) {
    || s.inWrapUp
    || Aborts(s, t)
    || !c.pipeline.autoRestructure
    || (Resumes(t.referees, c.pipeline, s.remainder) && IsCapped(s, c))
  }

  /** The remainder after any user turn that goes on, from its inputs: the old line if it survives, else what this
      turn captured, if anything. */
  lemma RemainderHygiene(before: Session, after: Session, round: Round, c: Config)
    requires TurnOutcome(before, after, round, c)
    ensures after.remainder ==
      if LineSurvives(before, round, c) then before.remainder
      else if Recaptured(before, round, c) then NewRest(before, round)
      else None
  {
    RestructureRouteIff(round.gated.referees, c.pipeline, before.remainder);
  }

  /** If every referee failed open, a turn hands off or hangs up exactly if the transfer detector fires in a turn not
      aborted; otherwise it speaks on the fail-open route, or re-voices the last reply if that is "restructure". */
  lemma FailOpenTurn(before: Session, t: GatedTurn, c: Config)
    requires AllFailedOpen(t.referees)
    ensures var report := GatedReport(before, t, c);
      (report.HandedOff? || report.HungUp? <==> !Aborts(before, t) && t.transferLlm.Some?)
    ensures !Aborts(before, t) && t.transferLlm.None? ==>
      && !GatedFlow(before, t, c).Returns?
      && GatedReport(before, t, c) ==
         if c.pipeline.failOpenRoute == Some(Revoice) then RestructureReport(AtGate(before, t, c), false, t.reply, c)
         else Spoke(FailOpenRoute(c.pipeline), ReplyCut(t.reply))
  {
    AllFailOpenSelectsDialogue(t.referees, c.pipeline, before.remainder);
  }

  // ----- one reply a turn -------------------------------------------------------

  datatype Kind = Replies | DefaultReplies

  predicate IsOf(kind: Kind, e: Event) {
    if kind.Replies? then e.AiReply? else e.DefaultReplyUsed?
  }

  /** How many events of a kind were recorded. */
  function Tally(kind: Kind, t: seq<Event>): nat {
    if t == [] then 0 else (if IsOf(kind, t[0]) then 1 else 0) + Tally(kind, t[1..])
  }

  lemma {:induction false} TallyConcat(kind: Kind, t: seq<Event>, u: seq<Event>)
    ensures Tally(kind, t + u) == Tally(kind, t) + Tally(kind, u)
  {
    if t == [] {
      assert t + u == u;
    } else {
      assert (t + u)[1..] == t[1..] + u;
      TallyConcat(kind, t[1..], u);
    }
  }

  lemma {:induction false} TallyNone(kind: Kind, t: seq<Event>)
    requires forall i :: 0 <= i < |t| ==> !IsOf(kind, t[i])
    ensures Tally(kind, t) == 0
  {
    if t != [] { TallyNone(kind, t[1..]); }
  }

  /** What playing a reply adds. */
  function Gain(kind: Kind, released: Option<Stream>): nat {
    if released.Some? && (kind.Replies? || released.value.defaultReply.Some?) then 1 else 0
  }

  lemma TallyOfStream(kind: Kind, mode: Speech, armed: bool, st: Stream)
    ensures Tally(kind, StreamEvents(mode, armed, st)) == if kind.Replies? then 0 else Gain(kind, Some(st))
  {
    var first, second := Optional(FirstAside(mode, st)), Optional(SecondAside(mode, st));
    var hit := InterruptionLog(CourseOf(armed, st.sentences).hit);
    TallyConcat(kind, first + second, hit);
    TallyConcat(kind, first, second);
    TallyNone(kind, hit);
    TallyNone(kind, Optional(FillerAside(mode, st)));
    if st.defaultReply.Some? { assert Optional(DefaultAside(st))[1..] == []; }
  }

  /** A streamed reply and its own event, and what that entails. */
  lemma TallyOfSpeech(kind: Kind, t: seq<Event>, mode: Speech, armed: bool, st: Stream, reply: seq<Event>)
    requires reply != [] && reply[0].AiReply?
    requires forall i :: 0 < i < |reply| ==> !reply[i].AiReply? && !reply[i].DefaultReplyUsed?
    ensures Tally(kind, t + StreamEvents(mode, armed, st) + reply) == Tally(kind, t) + Gain(kind, Some(st))
  {
    TallyConcat(kind, t + StreamEvents(mode, armed, st), reply);
    TallyConcat(kind, t, StreamEvents(mode, armed, st));
    TallyOfStream(kind, mode, armed, st);
    TallyNone(kind, reply[1..]);
  }

  lemma TallyOfBargeIn(kind: Kind, t: seq<Event>, hit: Option<string>)
    ensures Tally(kind, t + InterruptionLog(hit)) == Tally(kind, t)
  {
    TallyConcat(kind, t, InterruptionLog(hit));
    TallyNone(kind, InterruptionLog(hit));
  }

  function GatedRelease(report: Report, st: Stream): Option<Stream> {
    if report.Spoke? || report.Revoiced? then Some(st) else None
  }

  /** The reply a user turn that goes on plays, if it plays one. */
  function Released(s: Session, round: Round, c: Config): Option<Stream> {
    if ListensOnly(s, c) then None
    else if s.inWrapUp then Some(round.wrapUp.reply)
    else GatedRelease(GatedReport(s, round.gated, c), round.gated.reply)
  }

  /** A user turn that goes on records exactly one reply, the one it plays, or none if it plays none; and a default
      reply exactly if that one fell back on it, once. The other candidates never record anything. */
  lemma OneReplyATurn(kind: Kind, before: Session, after: Session, round: Round, c: Config)
    requires TurnOutcome(before, after, round, c)
    ensures Tally(kind, after.transcript) == Tally(kind, before.transcript) + Gain(kind, Released(before, round, c))
  {
    if ListensOnly(before, c) {
    } else if before.inWrapUp {
      TallyOfSpeech(kind, before.transcript, Parting, !before.signaled, round.wrapUp.reply, [AiReply(round.wrapUp.reply.replyText, false, true)]);
    } else {
      GatedTally(kind, before, after, round.gated, c);
    }
  }

  lemma GatedTally(kind: Kind, before: Session, after: Session, t: GatedTurn, c: Config)
    requires GatedOutcome(before, after, t, c)
    ensures Tally(kind, after.transcript) == Tally(kind, before.transcript) + Gain(kind, GatedRelease(GatedReport(before, t, c), t.reply))
  {
    var sel := Choice(t, c, before.remainder);
    if Aborts(before, t) {
      TallyOfBargeIn(kind, before.transcript, if before.signaled then None else FirstBargeIn(t.thinking));
    } else if !sel.route.Revoice? {
      ReplyTally(kind, AtGate(before, t, c), after, sel, t.reply);
    } else {
      RestructureTally(kind, AtGate(before, t, c), after, sel.fromRemainder, t.phrase, t.reply, c);
    }
  }

  lemma ReplyTally(kind: Kind, before: Session, after: Session, sel: Selection, st: Stream)
    requires sel.Dialogue? && ReplyOutcome(before, after, sel, st)
    ensures Tally(kind, after.transcript) == Tally(kind, before.transcript) + Gain(kind, Some(st))
  {
    TallyOfSpeech(kind, before.transcript, Answering, !before.signaled, st, ReplyEvents(sel, st.replyText, ReplyCut(st)));
  }

  lemma RestructureTally(kind: Kind, before: Session, after: Session, fromRemainder: bool, phrase: Playback, st: Stream, c: Config)
    requires RestructureOutcome(before, after, fromRemainder, phrase, st, c)
    ensures Tally(kind, after.transcript)
         == Tally(kind, before.transcript) + Gain(kind, GatedRelease(RestructureReport(before, fromRemainder, st, c), st))
  {
    TallyOfBargeIn(kind, before.transcript, HeardInPhrase(before, phrase, c));
    TallyOfSpeech(kind, before.transcript, Speech.Revoicing, !before.signaled, st, [AiReply(st.replyText, false, false)]);
  }

  /** An utterance of the main phase gets no reply exactly if the protection only cues, a barge-in was latched, even on
      an earlier playback, before the gate resolved, or a restructure is capped or has nothing to re-voice. */
  lemma UnansweredIff(before: Session, after: Session, round: Round, c: Config)
    requires TurnOutcome(before, after, round, c) && !before.inWrapUp
    ensures Tally(Replies, after.transcript) == Tally(Replies, before.transcript) <==>
      || ListensOnly(before, c) || Aborts(before, round.gated)
      || (var s, sel := AtGate(before, round.gated, c), Choice(round.gated, c, before.remainder);
          sel.route.Revoice? && (IsCapped(s, c) || RevoiceSource(s, sel.fromRemainder).None?))
  {
    OneReplyATurn(Replies, before, after, round, c);
  }

  // ----- the playback and the streaming protocol --------------------------------

  /** How the playback of one sentence comes out. */
  function OutcomeOf(armed: bool, p: Playback): PlayResult {
    if p.fails then Raised else if HeardDuring(armed, p).Some? then Cut else Played
  }

  /** The player's steps among these finish, cut off and fail the sentences as their playbacks do. */
  predicate Follows(armed: bool, steps: seq<Streaming.Step>, sentences: seq<Playback>)
    decreases |steps|
  {
    if steps == [] then true
    else if steps[0].Finish? then
      && sentences != [] && OutcomeOf(armed, sentences[0]).Played?
      && Follows(armed && HeardBy(armed, sentences[0]).None?, steps[1..], sentences[1..])
    else
      && (steps[0].BargeIn? ==> sentences != [] && OutcomeOf(armed, sentences[0]).Cut?)
      && (steps[0].Fail? ==> sentences != [] && OutcomeOf(armed, sentences[0]).Raised?)
      && Follows(armed, steps[1..], sentences)
  }

  /** A player that has played `played` sentences since `start` and is done stopped where this course says. */
  predicate Agrees(player: Streaming.Player, played: nat, start: nat, k: Course, all: nat) {
    player.Done? ==>
      if player.cut.Some? then played == start + k.at && (k.fully <==> player.failed)
      else played == start + all ==> k.fully
  }

  lemma StopsAsItsPlayback(armed: bool, s: Streaming.Reply, step: Streaming.Step, sentences: seq<Playback>)
    requires Streaming.Enabled(s, step) && Follows(armed, [step], sentences)
    requires !s.player.Done? && Streaming.Apply(s, step).player.Done?
    ensures Agrees(Streaming.Apply(s, step).player, |s.played|, |s.played|, CourseOf(armed, sentences), |sentences|)
    ensures Streaming.Apply(s, step).played == s.played
  {
  }

  lemma OneMorePlayed(armed: bool, player: Streaming.Player, played: nat, start: nat, sentences: seq<Playback>)
    requires sentences != [] && OutcomeOf(armed, sentences[0]).Played?
    requires Agrees(player, played, start + 1, CourseOf(armed && HeardBy(armed, sentences[0]).None?, sentences[1..]), |sentences| - 1)
    ensures Agrees(player, played, start, CourseOf(armed, sentences), |sentences|)
  {
  }

  lemma FollowsFirst(armed: bool, steps: seq<Streaming.Step>, sentences: seq<Playback>)
    requires steps != [] && Follows(armed, steps, sentences)
    ensures Follows(armed, [steps[0]], sentences)
  {
    assert [steps[0]][1..] == [];
  }

  /** In every run whose player follows the playbacks: cut off or failing, it stops where they say; having taken the
      sentinel after all of them, it was not cut off. */
  lemma {:induction false} PlayerFollows(armed: bool, s: Streaming.Reply, steps: seq<Streaming.Step>, sentences: seq<Playback>)
    requires Streaming.Runs(s, steps) && !s.player.Done? && Follows(armed, steps, sentences)
    ensures var n := Streaming.After(s, steps);
      Agrees(n.player, |n.played|, |s.played|, CourseOf(armed, sentences), |sentences|)
    decreases |steps|
  {
    if steps != [] {
      var n := Streaming.Apply(s, steps[0]);
      var end := Streaming.After(n, steps[1..]);
      if n.player.Done? {
        FollowsFirst(armed, steps, sentences);
        StopsAsItsPlayback(armed, s, steps[0], sentences);
        Streaming.PlayerStays(n, steps[1..]);
      } else if steps[0].Finish? {
        PlayerFollows(armed && HeardBy(armed, sentences[0]).None?, n, steps[1..], sentences[1..]);
        OneMorePlayed(armed, end.player, |end.played|, |s.played|, sentences);
      } else {
        PlayerFollows(armed, n, steps[1..], sentences);
      }
    }
  }

  /** The stream is the one of this run: its player follows the playbacks to the end of the reply, `late` is what was
      still generated during the teardown, and the default reply is the one the run fell back on. */
  ghost predicate TornFrom(armed: bool, st: Stream, eager: bool, run: seq<Streaming.Step>, late: seq<Streaming.Sentence>) {
    && Streaming.Runs(Streaming.Fresh(eager), run) && Follows(armed, run, st.sentences)
    && var end := Streaming.After(Streaming.Fresh(eager), run);
    && end.player.Done? && (end.player.cut.None? ==> |end.played| == |st.sentences|)
    && (late != [] ==> end.eager && !end.generated)
    && st.torn == Streaming.TornDown(end, late)
    && st.defaultReply == if end.fallback.Some? then Some(end.fallback.value.text) else None
  }

  /** Some run of the protocol gives this stream. */
  ghost predicate Coherent(armed: bool, st: Stream) {
    exists eager, run, late :: TornFrom(armed, st, eager, run, late)
  }

  /** The teardown of a cut reply finds as many sentences played as its playbacks say, and captures what is left of it
      in order, without the at most one sentence the producer held. A default reply stood in for a blank one. */
  lemma TeardownMatchesPlayback(armed: bool, st: Stream)
    requires Coherent(armed, st)
    ensures Streaming.CutOff(st.torn.player) <==> !CourseOf(armed, st.sentences).fully
    ensures !CourseOf(armed, st.sentences).fully ==> |st.torn.played| == CourseOf(armed, st.sentences).at
    ensures Streaming.IsUnplayed(st.torn, Streaming.Captured(st.torn))
    ensures st.defaultReply.Some? ==> Blank(Streaming.TextOf(st.torn.buffer))
  {
    var eager, run, late :| TornFrom(armed, st, eager, run, late);
    var end := Streaming.After(Streaming.Fresh(eager), run);
    PlayerFollows(armed, Streaming.Fresh(eager), run, st.sentences);
    Streaming.EveryRunConserves(eager, run);
    Streaming.TeardownCaptures(end, late);
    if late == [] { assert end.buffer + late == end.buffer; }
  }

  /** From the cut to the resume: what is re-voiced is the text of the reply from the sentence that was cut off on, in
      order, without the at most one sentence the producer was holding. */
  lemma ResumedLineIsTheUnspoken(cut: Session, afterCut: Session, t: GatedTurn, pending: Session, resume: GatedTurn, c: Config)
    requires GatedOutcome(cut, afterCut, t, c) && GatedReport(cut, t, c).Spoke? && ReplyCut(t.reply) && Coherent(true, t.reply)
    requires pending.remainder == afterCut.remainder && Resumes(resume.referees, c.pipeline, pending.remainder)
    requires GatedReport(pending, resume, c).Revoiced?
    ensures var torn := t.reply.torn;
      && GatedReport(pending, resume, c).text == Strip(Streaming.TextOf(Streaming.Captured(torn)))
      && |torn.played| == CourseOf(true, t.reply.sentences).at && Streaming.IsUnplayed(torn, Streaming.Captured(torn))
  {
    TeardownMatchesPlayback(true, t.reply);
    RestructureRouteIff(resume.referees, c.pipeline, pending.remainder);
  }
}
