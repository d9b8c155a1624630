/** Calls that the driver really makes, in which a line outlives its turn or an utterance goes unanswered. */
module Scenarios {
  import opened Text
  import opened Transcripts
  import opened Routing
  import opened Pacing
  import opened Sessions
  import opened Calls
  import Streaming

  // ----- what the caller and the models do --------------------------------------

  const SILENT := Playback([], [], false)

  /** The caller cuts in with "x". */
  const CUT_IN := [Partial("x", true)]

  /** A reply of one sentence that is played to its end. */
  function Uninterrupted(text: string): Stream {
    var sentence := Streaming.Sentence(text);
    Stream(None, None, true, [SILENT],
      Streaming.Reply(true, [sentence], 1, true, None, false, Streaming.Stopped, [], Streaming.Done(None, false), [sentence], []),
      text, false)
  }

  /** A reply of one sentence that is cut off. */
  function CutShort(text: string): Stream {
    var sentence := Streaming.Sentence(text);
    Stream(None, None, true, [Playback(CUT_IN, [], false)],
      Streaming.Reply(true, [sentence], 1, true, None, false, Streaming.Stopped, [], Streaming.Done(Some(sentence), false), [], []),
      text, false)
  }

  /** The one referee says `category`; none answers if it is empty. */
  function Vote(thinking: seq<Partial>, category: string, reply: Stream): GatedTurn {
    GatedTurn(None, thinking, [RefereeResult("gate", NonEmpty(category))], None, SILENT, reply)
  }

  /** The caller says `text`. */
  function Asked(text: string, t: GatedTurn): Round {
    Round([], Finals([text]), SILENT, None, t, WrapUpTurn(t.reply, None, 0.0, SILENT))
  }

  /** The caller says nothing, until the silence phrase makes them cut in. */
  function Roused(t: GatedTurn): Round {
    Round([], NothingHeard(3000), Playback(CUT_IN, [], false), None, t, WrapUpTurn(t.reply, None, 0.0, SILENT))
  }

  /** Resuming is switched on, once in a row; no rule ever matches. */
  function Switched(failOpen: Option<Route>): Config {
    Config(PipelineConfig([], [], 1, map[], failOpen, true, true, "FILLER", 1, []),
           SilenceConfig(3000, 2, [], "", 5000), WrapUpConfig(3, 60, false), {}, 3, false)
  }

  function Answered(greeting: string): CallScript {
    CallScript(Connected, false, Some(greeting), SILENT, [])
  }

  // ----- what that amounts to ---------------------------------------------------

  lemma CutsIn()
    ensures FirstBargeIn(CUT_IN) == Some("x") && FirstBargeIn([]) == None
  {
    StripOfTrimmed("x");
    assert BargeIn(CUT_IN[0]) == Some("x");
  }

  lemma OneFinal(text: string)
    requires Trimmed(text)
    ensures Combine([text]) == text
  {
    StripOfTrimmed(text);
    assert [text][1..] == [];
  }

  lemma UninterruptedIs(text: string)
    ensures CourseOf(true, Uninterrupted(text).sentences) == Course(true, None, false, 1)
    ensures forall mode :: StreamEvents(mode, true, Uninterrupted(text)) == []
  {
    assert Uninterrupted(text).sentences[1..] == [];
  }

  lemma CutShortIs(line: string)
    requires Trimmed(line) && line != ""
    ensures CourseOf(true, CutShort(line).sentences) == Course(false, Some("x"), true, 0)
    ensures forall mode :: StreamEvents(mode, true, CutShort(line)) == [Interruption("x")]
    ensures Rest(CutShort(line)) == Some(line)
  {
    CutsIn();
    StripOfTrimmed(line);
    var sentence := Streaming.Sentence(line);
    assert [sentence][1..] == [] && line + "" == line;
    assert Streaming.TextOf([sentence]) == line;
    assert Streaming.Captured(CutShort(line).torn) == [sentence];
    assert Unspoken(CutShort(line)) == line;
  }

  // ----- the replies are replies of the streaming protocol ----------------------

  /** The first sentence is being played. */
  function Playing(x: Streaming.Sentence): Streaming.Reply {
    Streaming.Fresh(true).(buffer := [x], replayed := 1, player := Streaming.Playing(x))
  }

  /** It was played to its end, with nothing to come. */
  function AllPlayed(x: Streaming.Sentence): Streaming.Reply {
    Streaming.Fresh(true).(buffer := [x], replayed := 1, played := [x])
  }

  predicate IsOutcome(step: Streaming.Step) { step.Finish? || step.BargeIn? || step.Fail? }

  lemma Precede(s: Streaming.Reply, step: Streaming.Step, rest: seq<Streaming.Step>, sentences: seq<Playback>) returns (run: seq<Streaming.Step>)
    requires Streaming.Enabled(s, step) && Streaming.Runs(Streaming.Apply(s, step), rest)
    requires !IsOutcome(step) && Follows(true, rest, sentences)
    ensures Streaming.Runs(s, run) && Streaming.After(s, run) == Streaming.After(Streaming.Apply(s, step), rest)
    ensures Follows(true, run, sentences)
  {
    run := [step] + rest;
    assert run[1..] == rest;
  }

  /** Every run from there on is the end of one from the start. */
  lemma FromTheStart(x: Streaming.Sentence, rest: seq<Streaming.Step>, sentences: seq<Playback>) returns (run: seq<Streaming.Step>)
    requires Streaming.Runs(Playing(x), rest) && Follows(true, rest, sentences)
    ensures Streaming.Runs(Streaming.Fresh(true), run)
    ensures Streaming.After(Streaming.Fresh(true), run) == Streaming.After(Playing(x), rest)
    ensures Follows(true, run, sentences)
  {
    var generated := Streaming.Fresh(true).(buffer := [x]);
    var queued := generated.(replayed := 1, queue := [Some(x)]);
    assert Streaming.Apply(queued, Streaming.Take) == Playing(x);
    run := Precede(queued, Streaming.Take, rest, sentences);
    assert Streaming.Apply(generated, Streaming.Pull) == queued;
    run := Precede(generated, Streaming.Pull, run, sentences);
    assert Streaming.Apply(Streaming.Fresh(true), Streaming.Generate(x)) == generated;
    run := Precede(Streaming.Fresh(true), Streaming.Generate(x), run, sentences);
  }

  lemma CutShortCoheres(line: string)
    ensures Coherent(true, CutShort(line))
  {
    var x, st := Streaming.Sentence(line), CutShort(line);
    var rest := [Streaming.BargeIn];
    CutsIn();
    assert rest[1..] == [];
    assert Streaming.After(Playing(x), rest) == Streaming.Apply(Playing(x), Streaming.BargeIn);
    var run := FromTheStart(x, rest, st.sentences);
    assert TornFrom(true, st, true, run, []);
  }

  lemma TheEnd(x: Streaming.Sentence) returns (rest: seq<Streaming.Step>)
    requires !Blank(x.text)
    ensures Streaming.Runs(AllPlayed(x), rest) && Follows(true, rest, [])
    ensures Streaming.After(AllPlayed(x), rest)
         == AllPlayed(x).(generated := true, producer := Streaming.Stopped, player := Streaming.Done(None, false))
  {
    var generated := AllPlayed(x).(generated := true);
    var sealed := generated.(producer := Streaming.Stopped, queue := [None]);
    rest := Precede(sealed, Streaming.Take, [], []);
    assert [x][1..] == [] && x.text + "" == x.text;
    assert Streaming.Apply(generated, Streaming.Complete) == sealed;
    rest := Precede(generated, Streaming.Complete, rest, []);
    rest := Precede(AllPlayed(x), Streaming.EndGeneration, rest, []);
  }

  lemma UninterruptedCoheres(text: string)
    requires !Blank(text)
    ensures Coherent(true, Uninterrupted(text))
  {
    var x, st := Streaming.Sentence(text), Uninterrupted(text);
    var end := TheEnd(x);
    var rest := [Streaming.Finish] + end;
    assert rest[1..] == end && st.sentences[1..] == [];
    assert Streaming.Apply(Playing(x), Streaming.Finish) == AllPlayed(x);
    var run := FromTheStart(x, rest, st.sentences);
    assert TornFrom(true, st, true, run, []);
  }

  // ----- single turns -----------------------------------------------------------

  /** The main phase, with no barge-in pending. */
  predicate AtEase(s: Session) { !s.signaled && !s.inWrapUp }

  const ON := Switched(None)

  /** A substantive utterance, whose reply the caller cuts off. */
  function Interrupted(text: string, line: string): Round { Asked(text, Vote([], "QUESTION", CutShort(line))) }

  /** The caller goes on speaking while the gate deliberates. */
  function SpokenOver(text: string, line: string): Round { Asked(text, Vote(CUT_IN, "QUESTION", Uninterrupted(line))) }

  /** A filler word. */
  function Hummed(text: string, line: string): Round { Asked(text, Vote([], "FILLER", Uninterrupted(line))) }

  lemma NoRuleMatches(t: GatedTurn, failOpen: Option<Route>)
    ensures Decide(t.referees, Switched(failOpen).pipeline.rules).verdict.Continue?
  {
    DecideFirstMatch(t.referees, Switched(failOpen).pipeline.rules, 0);
  }

  lemma HummingResumes(text: string, line: string, remainder: Option<string>)
    requires remainder.Some?
    ensures Resumes(Hummed(text, line).gated.referees, ON.pipeline, remainder)
    ensures Choice(Hummed(text, line).gated, ON, remainder) == Dialogue(Revoice, Some(Listen), "", true)
  {
    NoRuleMatches(Hummed(text, line).gated, None);
    var r := RefereeResult("gate", Some("FILLER"));
    assert r in Hummed(text, line).gated.referees;
  }

  lemma QuestionIsAnswered(t: GatedTurn, remainder: Option<string>)
    requires t.referees == [RefereeResult("gate", Some("QUESTION"))]
    ensures Choice(t, ON, remainder) == Dialogue(Main, None, "", false) && AfterHygiene(t, ON, remainder).None?
  {
    NoRuleMatches(t, None);
    RestructureRouteIff(t.referees, ON.pipeline, remainder);
  }

  lemma InterruptedGoes(before: Session, text: string, line: string)
    requires AtEase(before)
    ensures UserFlow(before, Interrupted(text, line), ON).Goes?
  {
    QuestionIsAnswered(Interrupted(text, line).gated, before.remainder);
  }

  lemma InterruptedTurn(before: Session, after: Session, text: string, line: string)
    requires AtEase(before) && Trimmed(line) && line != "" && TurnOutcome(before, after, Interrupted(text, line), ON)
    ensures after.transcript == before.transcript + [Interruption("x"), AiReply(line, false, false)]
    ensures AtEase(after) && after.remainder == Some(line) && after.restructureRun == before.restructureRun
  {
    var t := Interrupted(text, line).gated;
    QuestionIsAnswered(t, before.remainder);
    CutReply(AtGate(before, t, ON), after, line);
  }

  lemma CutReply(before: Session, after: Session, line: string)
    requires AtEase(before) && Trimmed(line) && line != ""
    requires ReplyOutcome(before, after, Dialogue(Main, None, "", false), CutShort(line))
    ensures after.transcript == before.transcript + [Interruption("x"), AiReply(line, false, false)]
    ensures AtEase(after) && after.remainder == Some(line) && after.restructureRun == before.restructureRun
  {
    CutShortIs(line);
    assert [Interruption("x")] + [AiReply(line, false, false)] == [Interruption("x"), AiReply(line, false, false)];
  }

  lemma SpokenOverTurn(before: Session, after: Session, text: string, line: string)
    requires AtEase(before) && TurnOutcome(before, after, SpokenOver(text, line), ON)
    ensures after.transcript == before.transcript + [Interruption("x")]
    ensures AtEase(after) && after.remainder == before.remainder && after.restructureRun == before.restructureRun
  {
    CutsIn();
  }

  lemma HummedGoes(before: Session, text: string, line: string)
    requires AtEase(before) && before.remainder == Some(line)
    ensures UserFlow(before, Hummed(text, line), ON).Goes?
  {
    HummingResumes(text, line, before.remainder);
  }

  lemma HummedReport(before: Session, text: string, line: string)
    requires AtEase(before) && before.remainder == Some(line)
    ensures GatedReport(before, Hummed(text, line).gated, ON) == if before.restructureRun == 0 then Revoiced(line, false) else Capped
  {
    UninterruptedIs(line);
    HummingResumes(text, line, before.remainder);
  }

  lemma HummedOutcome(before: Session, after: Session, text: string, line: string)
    requires AtEase(before) && before.remainder.Some? && TurnOutcome(before, after, Hummed(text, line), ON)
    ensures !after.inWrapUp && RestructureOutcome(before, after, true, SILENT, Uninterrupted(line), ON)
  {
    var t := Hummed(text, line).gated;
    HummingResumes(text, line, before.remainder);
    assert AtGate(before, t, ON) == before;
  }

  lemma RevoicedTurn(before: Session, after: Session, line: string)
    requires AtEase(before) && before.remainder == Some(line) && before.restructureRun == 0
    requires RestructureOutcome(before, after, true, SILENT, Uninterrupted(line), ON)
    ensures after.transcript == before.transcript + [AiReply(line, false, false)]
    ensures !after.signaled && after.remainder.None? && after.restructureRun == 1
  {
    UninterruptedIs(line);
    assert before.transcript + [] == before.transcript;
  }

  lemma CappedTurn(before: Session, after: Session, line: string)
    requires AtEase(before) && before.remainder == Some(line) && before.restructureRun > 0
    requires RestructureOutcome(before, after, true, SILENT, Uninterrupted(line), ON)
    ensures after.transcript == before.transcript && after.remainder == before.remainder && !after.signaled
  {
    assert before.transcript + [] == before.transcript;
  }

  // ----- whole calls ------------------------------------------------------------

  /** The call is answered and greeted. */
  method Begin(failOpen: Option<Route>, greeting: string) returns (call: CallSession)
    ensures fresh(call) && call.config == Switched(failOpen) && Listening(call.s, call.a, call.config)
    ensures call.s == Opened(Answered(greeting)) && call.s.transcript == [Greeting(greeting)]
  {
    call := new CallSession(Switched(failOpen));
    var ok := call.Open(Answered(greeting));
  }

  /** One round of the turn loop that goes on. */
  method Hear(call: CallSession, text: string, round: Round)
    requires Listening(call.s, call.a, call.config) && call.config.whitelist == {}
    requires Trimmed(text) && text != "" && round.heard == Finals([text])
    requires UserFlow(Write(call.s, UserSpeech(text)), round, call.config).Goes?
    modifies call
    ensures Listening(call.s, call.a, call.config)
    ensures TurnOutcome(Write(old(call.s), UserSpeech(text)), call.s, round, call.config)
  {
    OneFinal(text);
    var f := call.RunRound(round);
  }

  ghost predicate Ready(call: CallSession)
    reads call
  {
    Listening(call.s, call.a, call.config) && call.config == ON && AtEase(call.s)
  }

  method HearInterrupted(call: CallSession, text: string, line: string)
    requires Ready(call) && Trimmed(text) && text != "" && Trimmed(line) && line != ""
    modifies call
    ensures Ready(call) && call.s.remainder == Some(line) && call.s.restructureRun == old(call.s.restructureRun)
    ensures call.s.transcript == old(call.s.transcript) + [UserSpeech(text)] + [Interruption("x"), AiReply(line, false, false)]
  {
    ghost var before := Write(call.s, UserSpeech(text));
    InterruptedGoes(before, text, line);
    Hear(call, text, Interrupted(text, line));
    InterruptedTurn(before, call.s, text, line);
  }

  method HearSpokenOver(call: CallSession, text: string, line: string)
    requires Ready(call) && Trimmed(text) && text != ""
    modifies call
    ensures Ready(call) && call.s.remainder == old(call.s.remainder) && call.s.restructureRun == old(call.s.restructureRun)
    ensures call.s.transcript == old(call.s.transcript) + [UserSpeech(text)] + [Interruption("x")]
  {
    ghost var before := Write(call.s, UserSpeech(text));
    CutsIn();
    Hear(call, text, SpokenOver(text, line));
    SpokenOverTurn(before, call.s, text, line);
  }

  /** The line is re-voiced ... */
  method HearResumed(call: CallSession, text: string, line: string)
    requires Ready(call) && Trimmed(text) && text != "" && call.s.remainder == Some(line) && call.s.restructureRun == 0
    modifies call
    ensures Ready(call) && call.s.restructureRun == 1
    ensures GatedReport(Write(old(call.s), UserSpeech(text)), Hummed(text, line).gated, ON) == Revoiced(line, false)
    ensures call.s.transcript == old(call.s.transcript) + [UserSpeech(text)] + [AiReply(line, false, false)]
  {
    ghost var before := Write(call.s, UserSpeech(text));
    HummedGoes(before, text, line);
    Hear(call, text, Hummed(text, line));
    HummedReport(before, text, line);
    HummedOutcome(before, call.s, text, line);
    RevoicedTurn(before, call.s, line);
  }

  /** ... unless the one before was: then the caller hears nothing and the line is kept. */
  method HearCapped(call: CallSession, text: string, line: string)
    requires Ready(call) && Trimmed(text) && text != "" && call.s.remainder == Some(line) && call.s.restructureRun > 0
    modifies call
    ensures Ready(call) && call.s.remainder == Some(line)
    ensures call.s.transcript == old(call.s.transcript) + [UserSpeech(text)]
  {
    ghost var before := Write(call.s, UserSpeech(text));
    HummedGoes(before, text, line);
    Hear(call, text, Hummed(text, line));
    HummedOutcome(before, call.s, text, line);
    CappedTurn(before, call.s, line);
  }

  /** A line that is cut off, then spoken over. */
  method KeptPending(call: CallSession, line: string)
    requires Ready(call) && Trimmed(line) && line != ""
    modifies call
    ensures Ready(call) && call.s.remainder == Some(line) && call.s.restructureRun == old(call.s.restructureRun)
    ensures call.s.transcript == old(call.s.transcript) + [
      UserSpeech("how much"), Interruption("x"), AiReply(line, false, false), UserSpeech("no wait"), Interruption("x")]
  {
    HearInterrupted(call, "how much", line);
    HearSpokenOver(call, "no wait", line);
  }

  /** A call in which a line is cut off, kept by a turn aborted at the gate although the caller said something new, and
      re-voiced one turn later. */
  method StaleLineIsResumed(line: string) returns (call: CallSession, ghost stale: Session)
    requires Trimmed(line) && line != ""
    ensures Listening(call.s, call.a, ON)
    ensures call.s.transcript == [Greeting("hello"),
      UserSpeech("how much"), Interruption("x"), AiReply(line, false, false),
      UserSpeech("no wait"), Interruption("x"),
      UserSpeech("uh"), AiReply(line, false, false)]
    // what the last reply re-voices
    ensures stale.remainder == Some(line) && stale.transcript == call.s.transcript[..7]
    ensures GatedReport(stale, Hummed("uh", line).gated, ON) == Revoiced(line, false)
  {
    call := Begin(None, "hello");
    KeptPending(call, line);
    stale := Write(call.s, UserSpeech("uh"));
    HearResumed(call, "uh", line);
  }

  /** A line that is cut off and resumed. */
  method Resumed(call: CallSession, line: string)
    requires Ready(call) && Trimmed(line) && line != "" && call.s.restructureRun == 0
    modifies call
    ensures Ready(call) && call.s.restructureRun == 1
    ensures call.s.transcript == old(call.s.transcript) + [
      UserSpeech("how much"), Interruption("x"), AiReply(line, false, false),
      UserSpeech("uh"), AiReply(line, false, false)]
  {
    HearInterrupted(call, "how much", line);
    HearResumed(call, "uh", line);
  }

  /** The next line, which is cut off and not resumed. */
  method Withheld(call: CallSession, line: string)
    requires Ready(call) && Trimmed(line) && line != "" && call.s.restructureRun == 1
    modifies call
    ensures Ready(call) && call.s.remainder == Some(line)
    ensures call.s.transcript == old(call.s.transcript) + [
      UserSpeech("and when"), Interruption("x"), AiReply(line, false, false), UserSpeech("uh")]
  {
    HearInterrupted(call, "and when", line);
    HearCapped(call, "uh", line);
  }

  /** A call in which a second resume in a row is capped: nothing is said and the line is kept. */
  method CappedResumeKeepsTheLine(line: string) returns (call: CallSession)
    requires Trimmed(line) && line != ""
    ensures Listening(call.s, call.a, ON) && call.s.remainder == Some(line)
    ensures call.s.transcript == [Greeting("hello"),
      UserSpeech("how much"), Interruption("x"), AiReply(line, false, false),
      UserSpeech("uh"), AiReply(line, false, false),
      UserSpeech("and when"), Interruption("x"), AiReply(line, false, false),
      UserSpeech("uh")]
  {
    call := Begin(None, "hello");
    Resumed(call, line);
    Withheld(call, line);
  }

  // ----- a barge-in on a silence phrase -----------------------------------------

  lemma RousedTurn(before: Session, after: Session, t: GatedTurn)
    requires AtEase(before) && before.silenceCount == 0
    requires SilentOutcome(before, after, 3000, Roused(t).phrase, ON)
    ensures after.signaled && !after.inWrapUp
    ensures after.transcript == before.transcript + [SilenceActivation("", 0), Interruption("x")]
  {
    CutsIn();
  }

  /** The caller says nothing, then cuts in on the silence phrase. */
  method HearNothing(call: CallSession, t: GatedTurn)
    requires Ready(call) && call.s.silenceCount == 0
    modifies call
    ensures Listening(call.s, call.a, call.config) && call.s.signaled && !call.s.inWrapUp
    ensures call.s.transcript == old(call.s.transcript) + [SilenceActivation("", 0), Interruption("x")]
  {
    var f := call.RunRound(Roused(t));
    RousedTurn(old(call.s), call.s, t);
  }

  lemma LatchedTurn(before: Session, after: Session, round: Round)
    requires before.signaled && !before.inWrapUp && TurnOutcome(before, after, round, ON)
    ensures after.transcript == before.transcript
  {
    assert before.transcript + [] == before.transcript;
  }

  /** A call in which the caller answers over a silence phrase and gets no reply: the barge-in is still latched when the
      gate resolves, so the turn is aborted, whatever the models made of the utterance. */
  method AnswerToSilenceIsDropped(reply: GatedTurn) returns (call: CallSession)
    requires reply.spawnFails.None?
    ensures Listening(call.s, call.a, ON)
    ensures call.s.transcript == [Greeting("hello"), SilenceActivation("", 0), Interruption("x"), UserSpeech("yes")]
  {
    call := Begin(None, "hello");
    HearNothing(call, reply);
    ghost var before := Write(call.s, UserSpeech("yes"));
    Hear(call, "yes", Asked("yes", reply));
    LatchedTurn(before, call.s, Asked("yes", reply));
  }

  // ----- the fail-open restructure ----------------------------------------------

  function Unjudged(text: string): GatedTurn { Vote([], "", Uninterrupted(text)) }

  /** Just asked, after the greeting. */
  predicate JustAsked(s: Session, greeting: string) {
    && AtEase(s) && s.dialog == [Turn(false, greeting), Turn(true, "how much")] && Strip(greeting) != ""
    && s.restructureRun == 0 && s.remainder.None?
  }

  lemma UnjudgedChoice(greeting: string)
    ensures Choice(Unjudged(greeting), Switched(Some(Revoice)), None) == Dialogue(Revoice, None, "", false)
  {
    AllFailOpenSelectsDialogue(Unjudged(greeting).referees, Switched(Some(Revoice)).pipeline, None);
  }

  lemma GreetingIsLast(s: Session, greeting: string)
    requires JustAsked(s, greeting)
    ensures LastReply(s.dialog) == Some(greeting)
  {
    assert s.dialog[..1] == [Turn(false, greeting)];
    assert LastReply(s.dialog) == LastReply(s.dialog[..1]);
  }

  lemma UnjudgedGoes(asked: Session, greeting: string)
    requires JustAsked(asked, greeting)
    ensures UserFlow(asked, Asked("how much", Unjudged(greeting)), Switched(Some(Revoice))).Goes?
    ensures GatedReport(asked, Unjudged(greeting), Switched(Some(Revoice))) == Revoiced(greeting, false)
  {
    UninterruptedIs(greeting);
    UnjudgedChoice(greeting);
    GreetingIsLast(asked, greeting);
  }

  lemma UnjudgedTurn(asked: Session, after: Session, greeting: string)
    requires JustAsked(asked, greeting)
    requires TurnOutcome(asked, after, Asked("how much", Unjudged(greeting)), Switched(Some(Revoice)))
    ensures after.transcript == asked.transcript + [AiReply(greeting, false, false)]
  {
    UninterruptedIs(greeting);
    UnjudgedChoice(greeting);
    GreetingIsLast(asked, greeting);
    assert asked.transcript + [] == asked.transcript;
  }

  method HearUnjudged(call: CallSession, greeting: string, ghost asked: Session)
    requires Listening(call.s, call.a, call.config) && call.config == Switched(Some(Revoice))
    requires asked == Write(call.s, UserSpeech("how much")) && JustAsked(asked, greeting)
    modifies call
    ensures Listening(call.s, call.a, call.config)
    ensures GatedReport(asked, Unjudged(greeting), Switched(Some(Revoice))) == Revoiced(greeting, false)
    ensures call.s.transcript == asked.transcript + [AiReply(greeting, false, false)]
  {
    UnjudgedGoes(asked, greeting);
    Hear(call, "how much", Asked("how much", Unjudged(greeting)));
    UnjudgedTurn(asked, call.s, greeting);
  }

  /** With "restructure" as fail-open route, an utterance no referee judges makes the call re-voice its last reply,
      here the greeting, although nothing was interrupted. */
  method LastReplyIsRevoiced(greeting: string) returns (call: CallSession, ghost asked: Session)
    requires Strip(greeting) != ""
    ensures Listening(call.s, call.a, call.config)
    ensures call.s.transcript == [Greeting(greeting), UserSpeech("how much"), AiReply(greeting, false, false)]
    ensures asked.remainder.None? && asked.transcript == call.s.transcript[..2]
    ensures GatedReport(asked, Unjudged(greeting), Switched(Some(Revoice))) == Revoiced(greeting, false)
  {
    call := Begin(Some(Revoice), greeting);
    asked := Write(call.s, UserSpeech("how much"));
    HearUnjudged(call, greeting, asked);
  }
}
