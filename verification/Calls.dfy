/** One call: the session object, the barge-in monitor and the driver that runs the call from dial to END. */
module Calls {
  import opened Text
  import opened Transcripts
  import opened Routing
  import opened Pacing
  import opened Sessions
  import Streaming

  class CallSession {
    const config: Config
    var s: Session
    ghost var a: Account

    constructor (config: Config)
      ensures this.config == config && s == FRESH && Consistent(s, a, config)
    {
      this.config := config;
      s := FRESH;
      a := Account(BLANK, 0, 0);
    }

    method AppendEvent(e: Event)
      modifies this
      ensures s == Write(old(s), e) && a == Charge(old(a), e, config)
    {
      var dialog := s.dialog;
      if e.Greeting? || e.AiReply? {
        dialog := dialog + [Turn(false, e.text)];
      } else if e.UserSpeech? {
        dialog := dialog + [Turn(true, e.text)];
      }
      s := s.(transcript := s.transcript + [e], dialog := dialog);
      a := Charge(a, e, config);
    }

    /** Advisory: an unusual transition is recorded, never blocked. */
    method TransitionTo(next: CallStatus)
      modifies this
      ensures s.state == next
      ensures old(s.state) == next ==> s == old(s) && a == old(a)
      ensures Legal(old(s.state), next) ==>
                s == Move(old(s), next) && a == old(a)
      ensures old(s.state) != next && !Legal(old(s.state), next) ==>
                s == Move(Write(old(s), StateWarning(old(s.state), next)), next) && !a.log.ok
    {
      if next == s.state { return; }
      var current := s.state;
      if !Legal(current, next) {
        AppendEvent(StateWarning(current, next));
      }
      s := s.(state := next, history := s.history + [(current, next)]);
    }

    /** END, the cause and the hangup event. */
    method Finish(cause: Cause, reason: Reason)
      requires Live(s, a, config) && Fits(cause, reason)
      requires Justified(a.log, reason, config.silence.maxActivations)
      modifies this
      ensures Ended(s, a, config) && s.hangupCause == Some(cause)
      ensures s.transcript == old(s.transcript) + [Hangup(reason, reason.UserHangup?)]
      ensures SameResources(old(s), s)
    {
      FinishEnds(s, a, config, cause, Hangup(reason, reason.UserHangup?));
      TransitionTo(End);
      s := s.(hangupCause := Some(cause));
      AppendEvent(Hangup(reason, reason.UserHangup?));
    }

    /** The partial monitor on one partial. */
    method HearPartial(p: Partial) returns (hit: Option<string>)
      modifies this
      ensures hit == if old(Armed(s)) then BargeIn(p) else None
      ensures s == Latch(old(s), hit) && a == LatchCharge(old(a), hit, config)
    {
      hit := None;
      if !s.monitorsOn || (!s.inProcessing && !s.speaking) || s.signaled { return; }
      hit := BargeIn(p);
      if hit.Some? {
        s := s.(signaled := true);
        AppendEvent(Interruption(hit.value));
      }
    }

    /** The partial monitor working through the partials of one await. */
    method Monitor(partials: seq<Partial>) returns (hit: Option<string>)
      modifies this
      ensures hit == if old(Armed(s)) then FirstBargeIn(partials) else None
      ensures s == Latch(old(s), hit) && a == LatchCharge(old(a), hit, config)
    {
      hit := None;
      for i := 0 to |partials|
        invariant s == Latch(old(s), hit) && a == LatchCharge(old(a), hit, config)
        invariant hit.None? ==> !old(Armed(s)) || FirstBargeIn(partials) == FirstBargeIn(partials[i..])
        invariant hit.Some? ==> old(Armed(s)) && hit == FirstBargeIn(partials)
      {
        assert partials[i..][1..] == partials[i + 1..];
        var h := HearPartial(partials[i]);
        if h.Some? { hit := h; }
      }
    }

    // ----- playback -----------------------------------------------------------

    /** Play one chunk stream; the monitor may cancel it while its task runs. */
    method Play(interruptible: bool, p: Playback) returns (r: PlayResult, ghost hit: Option<string>)
      requires !s.speaking && !s.inProcessing
      modifies this
      ensures hit == HeardBy(Listens(old(s), interruptible), p)
      ensures r == if p.fails then Raised else if HeardDuring(Listens(old(s), interruptible), p).Some? then Cut else Played
      ensures s == Latch(old(s), hit)
      ensures a == Record1(LatchCharge(old(a), hit, config), HeardDuring(Listens(old(s), interruptible), p).Some?)
    {
      if interruptible { s := s.(speaking := true); }
      var cancel := Monitor(p.during);
      hit := cancel;
      if cancel.Some? {
        a := Record1(a, true);
      } else {
        hit := Monitor(p.late);
      }
      s := s.(speaking := false);
      r := if p.fails then Raised else if cancel.Some? then Cut else Played;
    }

    /** The sentences of a reply, one playback each: a synthesis error ends the reply quietly, a barge-in cuts it. */
    method PlaySentences(sentences: seq<Playback>) returns (fully: bool, ghost course: Course)
      requires !s.speaking && !s.inProcessing
      modifies this
      ensures course == CourseOf(Listens(old(s), true), sentences) && fully == course.fully
      ensures s == Latch(old(s), course.hit)
      ensures a == Record1(LatchCharge(old(a), course.hit, config), course.cut)
    {
      fully := true;
      ghost var armed := Listens(s, true);
      course := CourseOf(armed, sentences);
      ghost var hit: Option<string> := None;
      for i := 0 to |sentences|
        invariant fully && (hit.Some? ==> armed)
        invariant s == Latch(old(s), hit) && a == LatchCharge(old(a), hit, config)
        invariant course == After(hit, CourseOf(armed && hit.None?, sentences[i..]), i)
      {
        assert sentences[i..][1..] == sentences[i + 1..];
        var played, h := Play(true, sentences[i]);
        if played.Raised? { return; }
        if played.Cut? { fully := false; return; }
        if h.Some? { hit := h; }
      }
    }

    /** A filler, and the default reply for a silent model. */
    method WriteAsides(mode: Speech, st: Stream)
      modifies this
      ensures s == AsideWrites(old(s), mode, st) && a == AsideCharge(old(a), mode, st, config)
      ensures Listens(s, true) == Listens(old(s), true) && s.remainder == old(s.remainder)
      ensures s.speaking == old(s.speaking) && s.inProcessing == old(s.inProcessing)
    {
      var first, second := FirstAside(mode, st), SecondAside(mode, st);
      if first.Some? { AppendEvent(first.value); }
      if second.Some? { AppendEvent(second.value); }
    }

    /** Stream a reply; a cut captures the unspoken rest unless it is a restructure. */
    method PlayStreaming(mode: Speech, st: Stream) returns (r: PlayResult, ghost course: Course)
      requires !s.speaking && !s.inProcessing
      modifies this
      ensures course == CourseOf(Listens(old(s), true), st.sentences)
      ensures r == StreamResult(Listens(old(s), true), st)
      ensures s == Latch(AsideWrites(old(s), mode, st), course.hit)
                     .(remainder := if r.Cut? && !mode.Revoicing? then Rest(st) else old(s.remainder))
      ensures a == Record1(LatchCharge(AsideCharge(old(a), mode, st, config), course.hit, config), course.cut)
      // what a cut captures is the unplayed part of the reply, of which as many sentences were played as here
      ensures Coherent(Listens(old(s), true), st) && r.Cut? ==>
                && |st.torn.played| == course.at && Streaming.IsUnplayed(st.torn, Streaming.Captured(st.torn))
    {
      if Coherent(Listens(s, true), st) { TeardownMatchesPlayback(Listens(s, true), st); }
      WriteAsides(mode, st);
      var fully;
      fully, course := PlaySentences(st.sentences);
      r := if st.escapes then Raised else if fully then Played else Cut;
      if r.Cut? && !mode.Revoicing? {
        s := s.(remainder := Rest(st));
      }
    }

    // ----- the same steps on a live call ----------------------------------------

    method Note(e: Event)
      requires Live(s, a, config) && Plain(e) && Admissible(a.log, e, config.silence.maxActivations)
      modifies this
      ensures s == Write(old(s), e) && a == Charge(old(a), e, config) && Live(s, a, config)
    {
      WriteKeeps(s, a, config, e);
      AppendEvent(e);
    }

    /** Play a phrase if there is one. */
    method Say(wanted: bool, interruptible: bool, p: Playback) returns (r: PlayResult, ghost hit: Option<string>)
      requires Live(s, a, config) && !s.speaking && !s.inProcessing
      modifies this
      ensures Live(s, a, config) && Quiet(old(a.log), a.log)
      ensures hit == if wanted then HeardBy(Listens(old(s), interruptible), p) else None
      ensures s == Latch(old(s), hit)
      ensures r.Cut? ==> hit.Some?
      ensures r.Raised? <==> wanted && p.fails
    {
      if !wanted { return Played, None; }
      LatchKeeps(s, a, config, HeardBy(Listens(s, interruptible), p), HeardDuring(Listens(s, interruptible), p).Some?);
      r, hit := Play(interruptible, p);
    }

    // ----- how a turn ends ----------------------------------------------------

    /** Announce a hand-off; an exception from the phrase leaves the call in TRANSFERRING. */
    method Announce(h: Handoff) returns (ok: bool)
      requires Settled(s, a, config) && a.log.utterances > 0
      modifies this
      ensures Live(s, a, config) && s.state == Transferring && a.log.handoffs == 1 && a.log.marked == 0
      ensures old(s.transcript) + [TransferInitiated(h.trigger)] <= s.transcript
      ensures ok <==> HandoffFlow(h).Returns?
      ensures s.eager == old(s.eager) && s.spawned == old(s.spawned)
    {
      MoveKeeps(s, a, config, Transferring);
      TransitionTo(Transferring);
      Note(TransferInitiated(h.trigger));
      var r, hit := Say(h.phrase != "", true, h.playback);
      ok := !r.Raised?;
    }

    /** Mark the call for a human, hang up, END. */
    method PerformHandoff(h: Handoff) returns (f: Flow)
      requires Settled(s, a, config) && a.log.utterances > 0
      modifies this
      ensures f == HandoffFlow(h) && s.eager == old(s.eager) && s.spawned == old(s.spawned)
      ensures old(s.transcript) + [TransferInitiated(h.trigger)] <= s.transcript
      ensures f.Returns? ==>
                && Ended(s, a, config) && s.hangupCause == Some(HandoffCause)
                && EndsWith(s.transcript, [TransferMarked, Hangup(MarkedForHandoff, false)])
      ensures f.Raises? ==> Live(s, a, config) && s.state == Transferring
    {
      var ok := Announce(h);
      if !ok {
        return Raises;
      }
      Note(TransferMarked);
      Finish(HandoffCause, MarkedForHandoff);
      f := Returns;
    }

    /** Stream a reply in a turn. */
    method Speak(mode: Speech, st: Stream) returns (r: PlayResult)
      requires Settled(s, a, config) && a.log.utterances > 0
      modifies this
      ensures Settled(s, a, config) && Quiet(old(a.log), a.log)
      ensures r == StreamResult(!old(s.signaled), st)
      ensures s == Streamed(old(s), mode, st) && (r.Cut? ==> s.signaled)
    {
      ghost var s0, a0 := s, a;
      ghost var course;
      r, course := PlayStreaming(mode, st);
      StreamedIs(s0, mode, st);
      CourseHits(Listens(s0, true), st.sentences);
      StreamKeeps(s0, a0, config, mode, st, course.hit, course.cut);
      RestIsUsable(st);
      RestKeeps(Latch(AsideWrites(s0, mode, st), course.hit), a, config, s.remainder);
    }

    /** A barge-in ended the turn: clear the latch and count it towards the protection. */
    method Absorb()
      requires Settled(s, a, config) && s.signaled
      modifies this
      ensures Settled(s, a, config) && a == old(a).(absorbed := old(a.absorbed) + 1)
      ensures s == old(s).(signaled := false, interruptionRun := old(s.interruptionRun) + 1)
    {
      s := s.(interruptionRun := s.interruptionRun + 1, signaled := false);
      a := a.(absorbed := a.absorbed + 1);
    }

    method Reply(text: string, goalAchieved: bool, isWrapUp: bool)
      requires Settled(s, a, config) && a.log.utterances > 0
      modifies this
      ensures Settled(s, a, config)
      ensures s == Write(old(s), AiReply(text, goalAchieved, isWrapUp))
      ensures a == Charge(old(a), AiReply(text, goalAchieved, isWrapUp), config)
    {
      Note(AiReply(text, goalAchieved, isWrapUp));
    }

    /** The closing reply was played: wrap-up begins. */
    method EnterWrapUp(goalType: string)
      requires Settled(s, a, config) && !s.inWrapUp && a.log.last.Some? && a.log.last.value.AiReply?
      modifies this
      ensures Settled(s, a, config)
      ensures s == Write(Write(old(s), WrapUpStarted), GoalAchieved(goalType)).(inWrapUp := true)
    {
      s := s.(inWrapUp := true);
      AppendEvent(WrapUpStarted);
      Note(GoalAchieved(goalType));
    }

    // ----- dialogue route -----------------------------------------------------

    /** The reply was cut: record it and absorb the barge-in. */
    method AfterCut(text: string)
      requires Settled(s, a, config) && a.log.utterances > 0 && s.signaled
      modifies this
      ensures Settled(s, a, config)
      ensures s == Write(old(s), AiReply(text, false, false))
                     .(signaled := false, interruptionRun := old(s.interruptionRun) + 1)
    {
      Reply(text, false, false);
      Absorb();
    }

    /** The reply was played: both runs are over, and a closing reply starts wrap-up. */
    method AfterPlayed(sel: Selection, text: string)
      requires Settled(s, a, config) && a.log.utterances > 0 && !s.inWrapUp && sel.Dialogue?
      modifies this
      ensures Settled(s, a, config)
      ensures s.interruptionRun == 0 && s.restructureRun == 0
      ensures s.inWrapUp <==> sel.thenState == Some(WrappingUp)
      ensures s.transcript == old(s.transcript) + ReplyEvents(sel, text, false)
      ensures s.signaled == old(s.signaled) && s.remainder == old(s.remainder) && SameResources(old(s), s)
    {
      s := s.(interruptionRun := 0, restructureRun := 0);
      Reply(text, sel.route.Closing?, sel.route.Closing?);
      if sel.thenState == Some(WrappingUp) {
        EnterWrapUp(if sel.route.Closing? then sel.goalType else "");
      }
    }

    /** What follows the playback of a reply. */
    method Conclude(sel: Selection, st: Stream)
      requires Settled(s, a, config) && a.log.utterances > 0 && !s.inWrapUp && sel.Dialogue? && (ReplyCut(st) ==> s.signaled)
      modifies this
      ensures Settled(s, a, config)
      ensures s.transcript == old(s.transcript) + ReplyEvents(sel, st.replyText, ReplyCut(st))
      ensures s.signaled == (!ReplyCut(st) && old(s.signaled))
      ensures ReplyCut(st) ==>
                && !s.inWrapUp
                && s.interruptionRun == old(s.interruptionRun) + 1 && s.restructureRun == old(s.restructureRun)
      ensures !ReplyCut(st) ==>
                s.interruptionRun == 0 && s.restructureRun == 0 && (s.inWrapUp <==> sel.thenState == Some(WrappingUp))
      ensures s.remainder == old(s.remainder) && SameResources(old(s), s)
    {
      if ReplyCut(st) {
        AfterCut(st.replyText);
      } else {
        AfterPlayed(sel, st.replyText);
      }
    }

    /** Release the winning reply. */
    method DialogueTurn(sel: Selection, st: Stream) returns (f: Flow)
      requires Settled(s, a, config) && a.log.utterances > 0 && !s.inWrapUp && !s.signaled && sel.Dialogue?
      modifies this
      ensures old(s.transcript) <= s.transcript
      ensures Settled(s, a, config) && SameResources(old(s), s)
      ensures f == if st.escapes then Raises else Goes
      ensures f.Goes? ==> ReplyOutcome(old(s), s, sel, st)
    {
      TransitionTo(InCall);
      var r := Speak(Answering, st);
      if r.Raised? {
        return Raises;
      }
      PrefixThen(old(s).transcript, s.transcript, ReplyEvents(sel, st.replyText, ReplyCut(st)));
      Conclude(sel, st);
      f := Goes;
    }

    // ----- restructure route --------------------------------------------------

    /** Take-and-clear the remainder; failing that, the last thing the assistant said. */
    method AssembleInterruptText(fromRemainder: bool) returns (text: Option<string>)
      requires Settled(s, a, config)
      modifies this
      ensures Settled(s, a, config)
      ensures a == old(a) && s == if fromRemainder then old(s).(remainder := None) else old(s)
      ensures text == if fromRemainder && old(s.remainder).Some? then old(s.remainder) else LastReply(s.dialog)
    {
      var remaining := if fromRemainder then s.remainder else None;
      if fromRemainder { s := s.(remainder := None); }
      if remaining.Some? {
        StripOfTrimmed(remaining.value);
      }
      if remaining.Some? && Strip(remaining.value) != "" {
        text := remaining;
      } else {
        text := FindLastReply(s.dialog);
      }
    }

    /** Re-voice the assembled text, unless restructures were repeated too often. */
    method RestructureTurn(fromRemainder: bool, phrase: Playback, st: Stream) returns (f: Flow)
      requires Settled(s, a, config) && a.log.utterances > 0 && !s.inWrapUp && !s.signaled
      modifies this
      ensures old(s.transcript) <= s.transcript
      ensures f == RestructureFlow(old(s), fromRemainder, phrase, st, config)
      ensures Settled(s, a, config) && !s.inWrapUp && SameResources(old(s), s)
      ensures f.Goes? ==> RestructureOutcome(old(s), s, fromRemainder, phrase, st, config)
    {
      if s.restructureRun >= config.pipeline.maxContinuousRestructure {
        f := PlayDefaultReply(phrase);
      } else {
        var text := AssembleInterruptText(fromRemainder);
        f := Goes;
        if text.Some? {
          f := RevoiceText(st);
        }
      }
    }

    method PlayDefaultReply(phrase: Playback) returns (f: Flow)
      requires Settled(s, a, config)
      modifies this
      ensures old(s.transcript) <= s.transcript
      ensures f == if config.pipeline.defaultReplies != [] && phrase.fails then Raises else Goes
      ensures Settled(s, a, config)
      ensures f.Goes? ==> s.restructureRun == 0
      ensures s.transcript == old(s.transcript) + InterruptionLog(HeardInPhrase(old(s), phrase, config))
      ensures s.signaled <==> old(s.signaled) || HeardInPhrase(old(s), phrase, config).Some?
      ensures s.remainder == old(s.remainder) && s.interruptionRun == old(s.interruptionRun)
      ensures s.inWrapUp == old(s.inWrapUp) && SameResources(old(s), s)
    {
      var r, hit := Say(config.pipeline.defaultReplies != [], true, phrase);
      if r.Raised? { return Raises; }
      s := s.(restructureRun := 0);
      f := Goes;
    }

    method RevoiceText(st: Stream) returns (f: Flow)
      requires Settled(s, a, config) && a.log.utterances > 0 && !s.inWrapUp && !s.signaled
      requires s.restructureRun < config.pipeline.maxContinuousRestructure
      modifies this
      ensures old(s.transcript) <= s.transcript
      ensures f == if st.escapes then Raises else Goes
      ensures Settled(s, a, config) && !s.inWrapUp
      ensures s.remainder == old(s.remainder) && SameResources(old(s), s)
      ensures f.Goes? ==>
                && s.transcript == old(s.transcript) + StreamEvents(Speech.Revoicing, true, st) + [AiReply(st.replyText, false, false)]
                && s.restructureRun == old(s.restructureRun) + 1
                && s.interruptionRun == old(s.interruptionRun) + (if ReplyCut(st) then 1 else 0)
                && (s.signaled <==> !ReplyCut(st) && StaysLatched(false, st))
    {
      var r := Speak(Speech.Revoicing, st);
      if r.Raised? { return Raises; }
      PrefixThen(old(s).transcript, s.transcript, [AiReply(st.replyText, false, false)]);
      AfterRevoiced(st.replyText, r.Cut?);
      f := Goes;
    }

    method AfterRevoiced(text: string, cut: bool)
      requires Settled(s, a, config) && a.log.utterances > 0 && (cut ==> s.signaled)
      requires s.restructureRun < config.pipeline.maxContinuousRestructure
      modifies this
      ensures Settled(s, a, config)
      ensures s == Write(old(s), AiReply(text, false, false))
                     .(restructureRun := old(s.restructureRun) + 1, signaled := old(s.signaled) && !cut,
                       interruptionRun := old(s.interruptionRun) + if cut then 1 else 0)
    {
      Reply(text, false, false);
      s := s.(restructureRun := s.restructureRun + 1);
      if cut { Absorb(); }
    }

    // ----- the pre-reply gate -------------------------------------------------

    /** Start the generation of one candidate. */
    method StartEager() returns (id: nat)
      modifies this
      ensures a == old(a) && s == Spawn(old(s), 1) && id == old(s.spawned)
    {
      id := s.spawned;
      assert Ids(id, 1) == {id};
      s := s.(eager := s.eager + {id}, spawned := id + 1);
    }

    /** Start `main` and the first `n` enabled personas. */
    method StartCandidates(n: nat) returns (candidates: map<Route, nat>)
      requires n <= |EnabledPersonas(config.pipeline)|
      modifies this
      ensures a == old(a)
      ensures candidates == Candidates(old(s.spawned), EnabledPersonas(config.pipeline)[..n])
      ensures s == Spawn(old(s), 1 + n)
    {
      var personas := EnabledPersonas(config.pipeline);
      var base := StartEager();
      candidates := map[Main := base];
      for i := 0 to n
        invariant a == old(a) && s == Spawn(old(s), 1 + i)
        invariant candidates == Candidates(base, personas[..i])
      {
        CandidateOneMore(base, personas, i);
        SpawnOneMore(old(s), 1 + i);
        var id := StartEager();
        candidates := candidates[Persona(personas[i]) := id];
      }
    }

    /** Cancel every candidate but the winner. */
    method CancelCandidates(candidates: map<Route, nat>, winner: Option<Route>)
      modifies this
      ensures a == old(a)
      ensures s == old(s).(eager := old(s.eager) - set r | r in candidates && Some(r) != winner :: candidates[r])
    {
      var todo := candidates.Keys;
      while todo != {}
        invariant todo <= candidates.Keys
        invariant a == old(a)
        invariant s == old(s).(eager := old(s.eager) - set r | r in candidates && r !in todo && Some(r) != winner :: candidates[r])
        decreases todo
      {
        var r :| r in todo;
        todo := todo - {r};
        if Some(r) != winner { s := s.(eager := s.eager - {candidates[r]}); }
      }
    }

    /** A hangup or transfer tool: lazy, the speculative replies are dropped. */
    method ToolTurn(sel: Selection, phrase: Playback) returns (f: Flow)
      requires Settled(s, a, config) && a.log.utterances > 0 && !s.inWrapUp && sel.ToolRoute?
      modifies this
      ensures old(s.transcript) <= s.transcript
      ensures f == ToolFlow(sel, phrase) && s.eager == old(s.eager) && s.spawned == old(s.spawned)
      ensures f.Returns? ==> Ended(s, a, config)
      ensures f.Returns? ==> s.hangupCause == Some(if sel.tool.HangupTool? then RefereeCause else HandoffCause)
      ensures f.Raises? ==> Live(s, a, config)
    {
      if sel.tool.HangupTool? {
        s := s.(hangupCause := Some(RefereeCause));
        var r, hit := Say(sel.closingPhrase.Some?, true, phrase);
        if r.Raised? { return Raises; }
        Finish(RefereeCause, RefereeHangup);
        f := Returns;
      } else {
        f := PerformHandoff(Handoff("referee", "", phrase));
      }
    }

    /** Release the winner; it is cancelled, with its eager task, when its playback is torn down. */
    method ReleaseTurn(sel: Selection, st: Stream, candidates: map<Route, nat>) returns (f: Flow)
      requires Settled(s, a, config) && a.log.utterances > 0 && !s.inWrapUp && !s.signaled && sel.Dialogue?
      modifies this
      ensures old(s.transcript) <= s.transcript
      ensures Settled(s, a, config)
      ensures f == if st.escapes then Raises else Goes
      ensures f.Goes? ==> ReplyOutcome(old(s), s, sel, st)
      ensures f.Goes? ==> s.eager == old(s.eager) - candidates.Values
      ensures s.spawned == old(s.spawned) && s.silenceCount == old(s.silenceCount)
    {
      CancelCandidates(candidates, Some(sel.route));
      f := DialogueTurn(sel, st);
      if f.Goes? && sel.route in candidates {
        s := s.(eager := s.eager - {candidates[sel.route]});
      }
    }

    /** The referees vote; the monitor is armed meanwhile. */
    method Deliberate(thinking: seq<Partial>) returns (ghost hit: Option<string>)
      requires Settled(s, a, config)
      modifies this
      ensures Settled(s, a, config) && Quiet(old(a.log), a.log)
      ensures hit == if old(s.signaled) then None else FirstBargeIn(thinking)
      ensures s == Latch(old(s), hit)
    {
      LatchKeeps(s, a, config, if s.signaled then None else FirstBargeIn(thinking), false);
      s := s.(inProcessing := true);
      hit := Monitor(thinking);
      s := s.(inProcessing := false);
    }

    /** Await the gate with the candidates running. */
    method AwaitGate(t: GatedTurn) returns (candidates: map<Route, nat>, ghost hit: Option<string>)
      requires Settled(s, a, config)
      modifies this
      ensures Settled(s, a, config) && Quiet(old(a.log), a.log)
      ensures hit == if old(s.signaled) then None else FirstBargeIn(t.thinking)
      ensures candidates == Candidates(old(s.spawned), EnabledPersonas(config.pipeline))
      ensures s == Latch(Spawn(old(s), 1 + |EnabledPersonas(config.pipeline)|), hit)
    {
      var n := |EnabledPersonas(config.pipeline)|;
      assert EnabledPersonas(config.pipeline)[..n] == EnabledPersonas(config.pipeline);
      SpawnKeeps(s, a, config, 1 + n);
      candidates := StartCandidates(n);
      hit := Deliberate(t.thinking);
    }

    /** Spawning raised part-way. */
    method FailSpawn(n: nat)
      requires Settled(s, a, config)
      modifies this
      ensures Live(s, a, config) && s.transcript == old(s.transcript) && s.spawned <= old(s.spawned) + 3
    {
      var most := |EnabledPersonas(config.pipeline)|;
      SpawnKeeps(s, a, config, 1 + if n < most then n else most);
      var candidates := StartCandidates(if n < most then n else most);
    }

    /** A barge-in while thinking: drop the candidates and answer the next utterance instead. */
    method AbortTurn(candidates: map<Route, nat>)
      requires Settled(s, a, config) && s.signaled
      modifies this
      ensures Settled(s, a, config)
      ensures s == old(s).(eager := old(s.eager) - candidates.Values, signaled := false,
                           interruptionRun := old(s.interruptionRun) + 1)
    {
      CancelCandidates(candidates, None);
      assert candidates.Values == set r | r in candidates :: candidates[r];
      Absorb();
    }

    /** The routes that end the call. */
    method EndingTurn(sel: Selection, t: GatedTurn, candidates: map<Route, nat>) returns (f: Flow)
      requires Settled(s, a, config) && a.log.utterances > 0 && !s.inWrapUp
      requires sel.ToolRoute? || t.transferLlm.Some?
      modifies this
      ensures old(s.transcript) <= s.transcript
      ensures f == if Detected(sel, t) then HandoffFlow(t.transferLlm.value) else ToolFlow(sel, t.phrase)
      ensures f.Returns? ==> Ended(s, a, config)
      ensures f.Returns? ==>
                s.hangupCause == Some(if !Detected(sel, t) && sel.tool.HangupTool? then RefereeCause else HandoffCause)
      ensures f.Raises? ==> Live(s, a, config)
      ensures s.eager == old(s.eager) - candidates.Values && s.spawned == old(s.spawned)
    {
      CancelCandidates(candidates, None);
      if Detected(sel, t) {
        f := PerformHandoff(t.transferLlm.value);
      } else {
        f := ToolTurn(sel, t.phrase);
      }
    }

    method DropAndRestructure(fromRemainder: bool, t: GatedTurn, candidates: map<Route, nat>) returns (f: Flow)
      requires Settled(s, a, config) && a.log.utterances > 0 && !s.inWrapUp && !s.signaled
      modifies this
      ensures old(s.transcript) <= s.transcript
      ensures f == RestructureFlow(old(s), fromRemainder, t.phrase, t.reply, config)
      ensures Settled(s, a, config) && !s.inWrapUp
      ensures f.Goes? ==> RestructureOutcome(old(s), s, fromRemainder, t.phrase, t.reply, config)
      ensures s.eager == old(s.eager) - candidates.Values
      ensures s.spawned == old(s.spawned) && s.silenceCount == old(s.silenceCount)
    {
      CancelCandidates(candidates, None);
      f := RestructureTurn(fromRemainder, t.phrase, t.reply);
    }

    /** From the referees' verdicts to one released route, or the end of the call. */
    method AfterGate(t: GatedTurn, candidates: map<Route, nat>) returns (f: Flow)
      requires Settled(s, a, config) && a.log.utterances > 0 && !s.inWrapUp && !s.signaled && !Aborts(s, t)
      modifies this
      ensures old(s.transcript) <= s.transcript
      ensures f == RouteFlow(old(s), t, config)
      ensures f.Goes? ==> Settled(s, a, config) && GatedOutcome(old(s), s, t, config) && s.silenceCount == old(s.silenceCount)
      ensures f.Returns? ==> Ended(s, a, config)
      ensures f.Returns? ==>
                s.hangupCause == Some(if RouteReport(old(s), t, config).HungUp? then RefereeCause else HandoffCause)
      ensures f.Raises? ==> Live(s, a, config)
      ensures !f.Raises? ==> s.eager == old(s.eager) - candidates.Values
      ensures s.spawned == old(s.spawned)
    {
      var verdict := TurnVerdict(t.referees, config.pipeline, s.remainder).verdict;
      if !verdict.Restructure? && config.pipeline.autoRestructure && s.remainder.Some? {
        s := s.(remainder := None);
      }
      assert s == AtGate(old(s), t, config);
      var sel := SelectRoute(verdict, config.pipeline);
      if sel.ToolRoute? || t.transferLlm.Some? {
        f := EndingTurn(sel, t, candidates);
      } else if sel.route.Revoice? {
        f := DropAndRestructure(sel.fromRemainder, t, candidates);
      } else {
        f := ReleaseTurn(sel, t.reply, candidates);
      }
    }

    /** One gate-first turn of the main phase. */
    method RunGatedTurn(t: GatedTurn) returns (f: Flow)
      requires Settled(s, a, config) && a.log.utterances > 0 && !s.inWrapUp
      modifies this
      ensures old(s.transcript) <= s.transcript
      ensures f == GatedFlow(old(s), t, config)
      ensures f.Goes? ==> Settled(s, a, config) && GatedOutcome(old(s), s, t, config) && s.silenceCount == old(s.silenceCount)
      ensures f.Returns? ==> Ended(s, a, config)
      ensures f.Returns? ==>
                s.hangupCause == Some(if GatedReport(old(s), t, config).HungUp? then RefereeCause else HandoffCause)
      ensures f.Raises? ==> Live(s, a, config)
      // at most three candidates are started, and a normal return leaves only those running that nothing refers to
      ensures s.spawned <= old(s.spawned) + 3
      ensures !f.Raises? ==> s.eager == old(s.eager) + Leaked(old(s.spawned), EnabledPersonas(config.pipeline))
    {
      if t.spawnFails.Some? {
        FailSpawn(t.spawnFails.value);
        return Raises;
      }
      CancelLeavesLeaked(s.eager, s.spawned, EnabledPersonas(config.pipeline));
      var candidates, hit := AwaitGate(t);
      SpawnedTurn(old(s), 1 + |EnabledPersonas(config.pipeline)|, t, config);
      if s.signaled {
        AbortTurn(candidates);
        f := Goes;
      } else {
        f := AfterGate(t, candidates);
        SpawnedOutcome(old(s), 1 + |EnabledPersonas(config.pipeline)|, s, t, config);
      }
    }

    // ----- wrap-up ------------------------------------------------------------

    /** Stream a closing-style reply and record it. */
    method SpeakFarewell(t: WrapUpTurn) returns (r: PlayResult)
      requires Settled(s, a, config) && a.log.utterances > 0 && s.inWrapUp
      modifies this
      ensures Settled(s, a, config) && old(s.transcript) <= s.transcript
      ensures r == StreamResult(!old(s.signaled), t.reply) && (r.Cut? ==> s.signaled)
      ensures s == if r.Raised? then Streamed(old(s), Parting, t.reply) else Parted(old(s), t)
    {
      TransitionTo(InCall);
      r := Speak(Parting, t.reply);
      if !r.Raised? {
        Reply(t.reply.replyText, false, true);
      }
    }

    /** A turn of the wrap-up phase: the closing-style reply, then the bypass referee and the two limits. */
    method WrapUpReply(t: WrapUpTurn) returns (f: Flow)
      requires Settled(s, a, config) && a.log.utterances > 0 && s.inWrapUp
      modifies this
      ensures old(s.transcript) <= s.transcript
      ensures f == WrapUpFlow(old(s), t, config)
      ensures f.Goes? ==> Settled(s, a, config) && WrapUpOutcome(old(s), s, t)
      ensures f.Returns? ==> Ended(s, a, config)
      ensures f.Returns? ==> EndsWith(s.transcript,
                if Dismissed(t, config) then [Hangup(WrapUpRefereeHangup, false)]
                else Farewell(old(s.wrapUpRounds) + 1, config))
      ensures f.Raises? ==> Live(s, a, config)
      ensures SameResources(old(s), s)
    {
      var r := SpeakFarewell(t);
      if r.Raised? { return Raises; }
      f := ConcludeFarewell(t, r.Cut?, old(s));
    }

    method ConcludeFarewell(t: WrapUpTurn, cut: bool, ghost before: Session) returns (f: Flow)
      requires Settled(s, a, config) && before.inWrapUp && s == Parted(before, t) && (cut ==> s.signaled)
      requires StreamResult(!before.signaled, t.reply) == if cut then Cut else Played
      modifies this
      ensures old(s.transcript) <= s.transcript
      ensures f == WrapUpFlow(before, t, config)
      ensures f.Goes? ==> Settled(s, a, config) && WrapUpOutcome(before, s, t)
      ensures f.Returns? ==> Ended(s, a, config)
      ensures f.Returns? ==> EndsWith(s.transcript,
                if Dismissed(t, config) then [Hangup(WrapUpRefereeHangup, false)]
                else Farewell(before.wrapUpRounds + 1, config))
      ensures f.Raises? ==> Live(s, a, config)
      ensures SameResources(old(s), s)
    {
      if cut {
        PartedCut(before, t);
        Absorb();
        f := Goes;
      } else {
        PartedPlayed(before, t);
        f := AfterFarewell(t);
      }
    }

    /** The farewell was played: an explicit dismissal ends the call, otherwise the round counts. */
    method AfterFarewell(t: WrapUpTurn) returns (f: Flow)
      requires Settled(s, a, config) && s.inWrapUp
      modifies this
      ensures old(s.transcript) <= s.transcript
      ensures f.Goes? ==> Settled(s, a, config) && s == old(s).(wrapUpRounds := old(s.wrapUpRounds) + 1)
      ensures f == if Dismissed(t, config) then Returns
                   else if Continues(old(s.wrapUpRounds) + 1, t.elapsed, config) then Goes
                   else if t.closing.fails then Raises else Returns
      ensures SameResources(old(s), s)
      ensures f.Returns? ==> Ended(s, a, config)
      ensures f.Returns? ==> EndsWith(s.transcript,
                if Dismissed(t, config) then [Hangup(WrapUpRefereeHangup, false)]
                else Farewell(old(s.wrapUpRounds) + 1, config))
      ensures f.Raises? ==> Live(s, a, config)
    {
      if Dismissed(t, config) {
        Finish(RefereeCause, WrapUpRefereeHangup);
        return Returns;
      }
      f := CountRound(t.elapsed, t.closing);
    }

    method CountRound(elapsed: real, closing: Playback) returns (f: Flow)
      requires Settled(s, a, config) && s.inWrapUp
      modifies this
      ensures old(s.transcript) <= s.transcript
      ensures f.Goes? ==> Settled(s, a, config) && s == old(s).(wrapUpRounds := old(s.wrapUpRounds) + 1)
      ensures f == if Continues(old(s.wrapUpRounds) + 1, elapsed, config) then Goes
                   else if closing.fails then Raises else Returns
      ensures SameResources(old(s), s)
      ensures f.Returns? ==> Ended(s, a, config) && EndsWith(s.transcript, Farewell(old(s.wrapUpRounds) + 1, config))
      ensures f.Raises? ==> Live(s, a, config)
    {
      s := s.(wrapUpRounds := s.wrapUpRounds + 1);
      var decision := EvaluateWrapUp(s.wrapUpRounds, Some(elapsed), config.wrapUp);
      if decision.Proceed? { return Goes; }
      f := CloseWrapUp(decision.MaxRounds?, closing);
    }

    method CloseWrapUp(allRounds: bool, closing: Playback) returns (f: Flow)
      requires Live(s, a, config) && !s.speaking && !s.inProcessing && s.inWrapUp && a.log.completed == 0
      modifies this
      ensures old(s.transcript) <= s.transcript
      ensures f == if closing.fails then Raises else Returns
      ensures SameResources(old(s), s)
      ensures f.Returns? ==> Ended(s, a, config)
      ensures f.Returns? ==> EndsWith(s.transcript, [WrapUpCompleted(allRounds), Hangup(WrapUpDone, false)])
      ensures f.Raises? ==> Live(s, a, config)
    {
      var r, hit := Say(true, true, closing);
      if r.Raised? { return Raises; }
      ghost var said := s.transcript;
      Note(WrapUpCompleted(allRounds));
      Finish(WrapUpCause, WrapUpDone);
      assert s.transcript == said + [WrapUpCompleted(allRounds), Hangup(WrapUpDone, false)];
      PrefixThen(old(s).transcript, said, [WrapUpCompleted(allRounds), Hangup(WrapUpDone, false)]);
      f := Returns;
    }

    // ----- silence ------------------------------------------------------------

    method Reactivate(phrase: string, p: Playback) returns (f: Flow)
      requires Settled(s, a, config) && !s.inWrapUp && s.silenceCount < config.silence.maxActivations
      modifies this
      ensures old(s.transcript) + [SilenceActivation(phrase, old(s.silenceCount))] <= s.transcript
      ensures f == if p.fails then Raises else Goes
      ensures f.Goes? ==> Settled(s, a, config) && s == Reactivated(old(s), phrase, p)
      ensures f.Raises? ==> Live(s, a, config)
    {
      TransitionTo(InCall);
      AppendEvent(SilenceActivation(phrase, s.silenceCount));
      var r, hit := Say(true, true, p);
      if r.Raised? { return Raises; }
      s := s.(silenceCount := s.silenceCount + 1);
      TransitionTo(InCall);
      f := Goes;
    }

    method SilenceHangup(phrase: string, p: Playback) returns (f: Flow)
      requires Settled(s, a, config) && (s.inWrapUp || s.silenceCount >= config.silence.maxActivations)
      modifies this
      ensures old(s.transcript) <= s.transcript
      ensures f == if phrase != "" && p.fails then Raises else Returns
      ensures s.eager == old(s.eager)
      ensures f.Returns? ==> Ended(s, a, config) && s.hangupCause == Some(SilenceCause)
      ensures f.Returns? ==>
                EndsWith(s.transcript, [Hangup(if old(s.inWrapUp) then WrapUpSilence else SilenceMaxReached, false)])
      ensures f.Raises? ==> Live(s, a, config)
    {
      var r, hit := Say(phrase != "", true, p);
      if r.Raised? { return Raises; }
      Finish(SilenceCause, if s.inWrapUp then WrapUpSilence else SilenceMaxReached);
      f := Returns;
    }

    // ----- the turn loop ------------------------------------------------------

    /** Too many interruptions in a row under the listen-only strategy: a cue that cannot be interrupted. */
    method ListenOnly(p: Playback) returns (f: Flow)
      requires Settled(s, a, config)
      modifies this
      ensures Settled(s, a, config)
      ensures f == if p.fails then Raises else Goes
      ensures s == if f.Goes? then old(s).(interruptionRun := 0) else old(s)
    {
      TransitionTo(InCall);
      var r, hit := Say(true, false, p);
      if r.Raised? { return Raises; }
      s := s.(interruptionRun := 0);
      TransitionTo(InCall);
      f := Goes;
    }

    /** An utterance worth a turn: recorded, then a keyword transfer, the listen-only cue, a farewell or a gated turn. */
    method UserTurn(text: string, round: Round) returns (f: Flow)
      requires Listening(s, a, config)
      modifies this
      ensures old(s.transcript) + [UserSpeech(text)] <= s.transcript
      ensures f == UserFlow(Write(old(s), UserSpeech(text)), round, config)
      ensures f.Goes? ==> Listening(s, a, config) && TurnOutcome(Write(old(s), UserSpeech(text)), s, round, config)
      ensures f.Goes? ==> s.silenceCount == old(s.silenceCount) && (old(s.inWrapUp) ==> s.inWrapUp)
      ensures f.Returns? ==> Ended(s, a, config) && Tidy(s, config)
      ensures f.Raises? ==> Live(s, a, config)
    {
      Note(UserSpeech(text));
      if round.cheapTransfer.Some? {
        f := PerformHandoff(round.cheapTransfer.value);
      } else if ListensOnly(s, config) {
        f := ListenOnly(round.phrase);
      } else if s.inWrapUp {
        TransitionTo(InCall);
        f := WrapUpReply(round.wrapUp);
      } else {
        TransitionTo(InCall);
        LeakIffDuplicate(s.spawned, EnabledPersonas(config.pipeline));
        f := RunGatedTurn(round.gated);
      }
    }

    method SilentTurn(elapsedMs: int, p: Playback) returns (f: Flow)
      requires Listening(s, a, config)
      modifies this
      ensures old(s.transcript) <= s.transcript
      ensures f.Goes? ==> Listening(s, a, config)
      ensures f.Returns? ==> Ended(s, a, config) && Tidy(s, config)
      ensures f.Raises? ==> Live(s, a, config)
      ensures f == SilentFlow(old(s), elapsedMs, p, config)
      ensures f.Goes? ==> SilentOutcome(old(s), s, elapsedMs, p, config)
      // an expired window climbs one rung of the ladder or ends the call, any other changes nothing
      ensures f.Goes? && elapsedMs >= old(WindowMs(config.silence, s.inWrapUp)) ==>
                && !s.inWrapUp && s.silenceCount == old(s.silenceCount) + 1 <= config.silence.maxActivations
      ensures elapsedMs < old(WindowMs(config.silence, s.inWrapUp)) ==> f.Goes? && s == old(s)
      ensures s.inWrapUp == old(s.inWrapUp) || !f.Goes?
    {
      var decision := EvaluateSilence(elapsedMs, s.silenceCount, config.silence, s.inWrapUp);
      match decision
      case Wait => f := Goes;
      case Activate(phrase) => f := Reactivate(phrase, p);
      case HangUp(phrase) => f := SilenceHangup(phrase, p);
    }

    /** One pass of the turn loop. */
    method RunRound(round: Round) returns (f: Flow)
      requires Listening(s, a, config)
      modifies this
      ensures old(s.transcript) <= s.transcript
      // an utterance worth a turn gets one, any other final changes nothing
      ensures round.heard.Finals? && Actionable(Combine(round.heard.texts), config) ==>
                var spoken := Write(old(s), UserSpeech(Combine(round.heard.texts)));
                && spoken.transcript <= s.transcript && f == UserFlow(spoken, round, config)
                && (f.Goes? ==> TurnOutcome(spoken, s, round, config))
      ensures round.heard.Finals? && !Actionable(Combine(round.heard.texts), config) ==> f.Goes? && s == old(s)
      ensures round.heard.NothingHeard? ==>
                && f == SilentFlow(old(s), round.heard.elapsedMs, round.phrase, config)
                && (f.Goes? ==> SilentOutcome(old(s), s, round.heard.elapsedMs, round.phrase, config))
      ensures round.heard.RemoteHangup? ==> f.Returns? && s.hangupCause == Some(UserHangupCause)
      ensures f.Goes? ==> Listening(s, a, config) && (old(s.inWrapUp) ==> s.inWrapUp)
      ensures f.Returns? ==> Ended(s, a, config) && Tidy(s, config)
      ensures f.Raises? ==> Live(s, a, config)
      // the silence count is the number of windows that ran out in the main phase, and is never reset
      ensures f.Goes? && !old(s.inWrapUp) ==> s.silenceCount == old(s.silenceCount) + Expired([round], config)
      ensures f.Goes? && !old(s.inWrapUp) && Expired([round], config) > 0 ==>
                !s.inWrapUp && s.silenceCount <= config.silence.maxActivations
      ensures f.Goes? && old(s.inWrapUp) ==> s.silenceCount == old(s.silenceCount)
    {
      var hit := Monitor(round.idle);
      ExpiredOne(round, config);
      match round.heard
      case RemoteHangup =>
        Finish(UserHangupCause, UserHangup);
        f := Returns;
      case NothingHeard(ms) =>
        f := SilentTurn(ms, round.phrase);
      case Finals(texts) =>
        var combined := CombineFinals(texts);
        f := Goes;
        if Actionable(combined, config) {
          f := UserTurn(combined, round);
        }
    }

    /** The turn loop, over as many rounds as the world provides: `Goes` means the call is still on. The first
        `inMain` of them belong to the main phase. */
    method MainTurnLoop(rounds: seq<Round>) returns (f: Flow, ghost inMain: nat)
      requires Listening(s, a, config)
      modifies this
      ensures old(s.transcript) <= s.transcript
      ensures f.Goes? ==> Listening(s, a, config)
      ensures f.Returns? ==> Ended(s, a, config) && Tidy(s, config)
      ensures f.Raises? ==> Live(s, a, config)
      // however user turns and silences alternate, a main phase survives at most (limit - count) expired windows
      ensures f.Goes? ==> inMain <= |rounds| && (inMain < |rounds| ==> s.inWrapUp)
      ensures f.Goes? ==> s.silenceCount == old(s.silenceCount) + Expired(rounds[..inMain], config)
      ensures f.Goes? ==> Expired(rounds[..inMain], config) <= Max(0, config.silence.maxActivations - old(s.silenceCount))
    {
      f := Goes;
      inMain := 0;
      for i := 0 to |rounds|
        invariant f.Goes? && Listening(s, a, config)
        invariant old(s.transcript) <= s.transcript
        invariant inMain <= i && (if s.inWrapUp then true else inMain == i)
        invariant s.silenceCount == old(s.silenceCount) + Expired(rounds[..inMain], config)
        invariant s.silenceCount == old(s.silenceCount) || s.silenceCount <= config.silence.maxActivations
      {
        if !s.inWrapUp {
          ExpiredStep(rounds, i, config);
          inMain := i + 1;
        }
        f := RunRound(rounds[i]);
        if !f.Goes? { return; }
      }
    }

    // ----- the whole call -----------------------------------------------------

    /** The top-level exception handler. */
    method HandleError()
      requires Live(s, a, config)
      modifies this
      ensures Ended(s, a, config) && old(s.transcript) <= s.transcript
      ensures s.hangupCause == if old(s.hangupCause).Some? then old(s.hangupCause) else Some(NoProgressCause)
      ensures s.transcript[|s.transcript| - 1].reason.InternalError?
    {
      var cause := if s.hangupCause.Some? then s.hangupCause.value else NoProgressCause;
      Finish(cause, InternalError(cause));
    }

    /** Connected: set up, greet, arm the monitors. */
    method Open(script: CallScript) returns (ok: bool)
      requires s == FRESH && Live(s, a, config)
      modifies this
      ensures ok <==> !script.setupFails && script.greeting.Some? && !script.greetingPlayback.fails
      // nothing said during the greeting interrupts it or is recorded; the monitors start when it is over
      ensures !script.setupFails && script.greeting.Some? ==> s.transcript == [Greeting(script.greeting.value)]
      ensures s.monitorsOn == ok
      ensures ok ==> Listening(s, a, config) && s == Opened(script)
      ensures !ok ==> Live(s, a, config)
    {
      MoveKeeps(s, a, config, InCall);
      TransitionTo(InCall);
      if script.setupFails || script.greeting.None? { return false; }
      AppendEvent(Greeting(script.greeting.value));
      var r, hit := Say(true, true, script.greetingPlayback);
      if r.Raised? { return false; }
      TransitionTo(InCall);
      s := s.(monitorsOn := true);
      ok := true;
    }

    /** Drive one call from dial to END. `finished` is false only when the script ran out with the call still on. */
    method RunSession(script: CallScript) returns (finished: bool)
      requires s == FRESH && Consistent(s, a, config)
      modifies this
      ensures if finished then Ended(s, a, config) else Listening(s, a, config)
      ensures script.dial.NotConnected? ==> finished && s.transcript == [Hangup(NoAnswer, false)]
      ensures Greets(script) ==> [Greeting(script.greeting.value)] <= s.transcript
      // the status path is legal, so no warning was written
      ensures LegalPath(s.history)
      ensures forall i :: 0 <= i < |s.transcript| ==> !s.transcript[i].StateWarning?
      // a finished call is in END with a cause, and its one hangup is the last event
      ensures finished ==> s.state == End && s.hangupCause.Some?
      ensures finished ==> forall i :: 0 <= i < |s.transcript| ==> (s.transcript[i].Hangup? <==> i == |s.transcript| - 1)
      // unless an exception ended it, a call leaves no speculative generation running
      ensures finished && !s.transcript[|s.transcript| - 1].reason.InternalError? ==> Tidy(s, config)
    {
      finished := Drive(script);
      LiveCall(s, a, config);
      if finished { EndedCall(s, a, config); }
    }

    method Drive(script: CallScript) returns (finished: bool)
      requires s == FRESH && Live(s, a, config)
      modifies this
      ensures if finished then Ended(s, a, config) else Listening(s, a, config)
      ensures script.dial.NotConnected? ==> finished && s.transcript == [Hangup(NoAnswer, false)]
      ensures Greets(script) ==> [Greeting(script.greeting.value)] <= s.transcript
      ensures finished && !s.transcript[|s.transcript| - 1].reason.InternalError? ==> Tidy(s, config)
    {
      if script.dial.NotConnected? {
        Finish(NoAnswerCause, NoAnswer);
        return true;
      }
      var f := if script.dial.Connected? then Goes else Raises;
      if f.Goes? { f := Converse(script); }
      if f.Raises? { HandleError(); }
      finished := !f.Goes?;
    }

    /** From the connected line to the end of the turn loop. */
    method Converse(script: CallScript) returns (f: Flow)
      requires s == FRESH && Live(s, a, config)
      modifies this
      ensures f.Goes? ==> Listening(s, a, config)
      ensures f.Returns? ==> Ended(s, a, config) && Tidy(s, config)
      ensures f.Raises? ==> Live(s, a, config)
      ensures !script.setupFails && script.greeting.Some? ==> [Greeting(script.greeting.value)] <= s.transcript
    {
      var ok := Open(script);
      f := Raises;
      if ok {
        ghost var inMain;
        f, inMain := MainTurnLoop(script.rounds);
      }
    }
  }
}
