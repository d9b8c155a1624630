/** Call status, the transcript and the order its events may appear in. */
module Transcripts {
  import opened Text

  datatype CallStatus = Init | InCall | Transferring | End

  /** LEGAL_TRANSITIONS. */
  predicate Legal(a: CallStatus, b: CallStatus) {
    match a
    case Init => b in {InCall, End}
    case InCall => b in {Transferring, End}
    case Transferring => b == End
    case End => false
  }

  type History = seq<(CallStatus, CallStatus)>

  /** The history is a path of legal transitions that starts in `Init`. */
  predicate LegalPath(h: History) {
    && (h != [] ==> h[0].0 == Init)
    && (forall i :: 0 <= i < |h| ==> Legal(h[i].0, h[i].1))
    && (forall i :: 0 < i < |h| ==> h[i].0 == h[i - 1].1)
  }

  function StatusAfter(h: History): CallStatus {
    if h == [] then Init else h[|h| - 1].1
  }

  /** How many transitions are still possible. */
  function Rank(a: CallStatus): nat {
    match a case Init => 3 case InCall => 2 case Transferring => 1 case End => 0
  }

  lemma {:induction false} RankFalls(h: History, i: nat)
    requires LegalPath(h) && i < |h|
    ensures Rank(h[i].1) + i < 3
  {
    if i > 0 {
      RankFalls(h, i - 1);
      assert h[i].0 == h[i - 1].1;
    }
  }

  /** A legal call changes status at most three times and never leaves `End`. */
  lemma LegalPathIsShort(h: History)
    requires LegalPath(h)
    ensures |h| <= 3
    ensures forall i :: 0 <= i < |h| - 1 ==> h[i].1 != End
  {
    if h != [] {
      RankFalls(h, |h| - 1);
      forall i | 0 <= i < |h| - 1 ensures h[i].1 != End {
        assert h[i + 1].0 == h[i].1;
      }
    }
  }

  /** The hangup_cause of a call. */
  datatype Cause =
    | NoAnswerCause | UserHangupCause | SilenceCause | HandoffCause | RefereeCause | WrapUpCause | NoProgressCause

  /** The reason recorded with the hangup event; an internal error records the cause it found. */
  datatype Reason =
    | NoAnswer | UserHangup | SilenceMaxReached | WrapUpSilence | MarkedForHandoff
    | RefereeHangup | WrapUpRefereeHangup | WrapUpDone | InternalError(cause: Cause)

  predicate Fits(cause: Cause, reason: Reason) {
    match reason
    case NoAnswer => cause.NoAnswerCause?
    case UserHangup => cause.UserHangupCause?
    case SilenceMaxReached => cause.SilenceCause?
    case WrapUpSilence => cause.SilenceCause?
    case MarkedForHandoff => cause.HandoffCause?
    case RefereeHangup => cause.RefereeCause?
    case WrapUpRefereeHangup => cause.RefereeCause?
    case WrapUpDone => cause.WrapUpCause?
    case InternalError(c) => cause == c
  }

  datatype Event =
    | Greeting(text: string)
    | UserSpeech(text: string)
    | AiReply(text: string, goalAchieved: bool, isWrapUp: bool)
    | Interruption(text: string)
    | Filler(text: string)
    | DefaultReplyUsed(text: string)
    | SilenceActivation(text: string, index: nat)
    | TransferInitiated(trigger: string)
    | TransferMarked
    | GoalAchieved(goalType: string)
    | WrapUpStarted
    | WrapUpCompleted(allRounds: bool)
    | Hangup(reason: Reason, byUser: bool)
    | StateWarning(from: CallStatus, to: CallStatus)

  datatype Turn = Turn(fromUser: bool, text: string)

  /** What a transcript has recorded so far; `ok` means that every event came in its place. */
  datatype Record = Record(
    ok: bool,
    dialog: seq<Turn>,
    greetings: nat,
    utterances: nat,
    interruptions: nat,
    activations: nat,
    handoffs: nat,
    marked: nat,
    wrapUps: nat,
    completed: nat,
    hangups: nat,
    last: Option<Event>)

  const BLANK := Record(true, [], 0, 0, 0, 0, 0, 0, 0, 0, 0, None)

  /** What must have happened for a call to end with this reason. */
  predicate Justified(r: Record, reason: Reason, maxActivations: int) {
    match reason
    case NoAnswer => r.greetings == 0
    case SilenceMaxReached => r.wrapUps == 0 && r.activations >= maxActivations
    case WrapUpSilence => r.wrapUps == 1
    case MarkedForHandoff => r.marked == 1
    case RefereeHangup => r.wrapUps == 0 && r.utterances > 0
    case WrapUpRefereeHangup => r.wrapUps == 1
    case WrapUpDone => r.completed == 1
    case _ => true
  }

  /** May `e` be written next? */
  predicate Admissible(r: Record, e: Event, maxActivations: int) {
    && r.hangups == 0
    && match e
       case Greeting(_) => r.greetings == 0
       case UserSpeech(_) => r.greetings == 1
       case AiReply(_, _, _) => r.utterances > 0
       case Interruption(_) => r.greetings == 1
       case Filler(_) => r.utterances > 0
       case DefaultReplyUsed(_) => r.utterances > 0
       case SilenceActivation(_, i) => r.wrapUps == 0 && i == r.activations < maxActivations
       case TransferInitiated(_) => r.utterances > 0 && r.handoffs == 0
       case TransferMarked => r.handoffs == 1 && r.marked == 0
       case GoalAchieved(_) => r.last.Some? && r.last.value.WrapUpStarted?
       case WrapUpStarted => r.wrapUps == 0 && r.last.Some? && r.last.value.AiReply?
       case WrapUpCompleted(_) => r.wrapUps == 1 && r.completed == 0
       case Hangup(reason, byUser) => (byUser <==> reason.UserHangup?) && Justified(r, reason, maxActivations)
       case StateWarning(_, _) => false
  }

  /** The dialog after `e`: only conversation events extend it. */
  function Spoken(dialog: seq<Turn>, e: Event): seq<Turn> {
    if e.Greeting? || e.AiReply? then dialog + [Turn(false, e.text)]
    else if e.UserSpeech? then dialog + [Turn(true, e.text)]
    else dialog
  }

  function Advance(r: Record, e: Event, maxActivations: int): Record {
    var n := r.(ok := r.ok && Admissible(r, e, maxActivations), dialog := Spoken(r.dialog, e), last := Some(e));
    match e
    case Greeting(_) => n.(greetings := r.greetings + 1)
    case UserSpeech(_) => n.(utterances := r.utterances + 1)
    case Interruption(_) => n.(interruptions := r.interruptions + 1)
    case SilenceActivation(_, _) => n.(activations := r.activations + 1)
    case TransferInitiated(_) => n.(handoffs := r.handoffs + 1)
    case TransferMarked => n.(marked := r.marked + 1)
    case WrapUpStarted => n.(wrapUps := r.wrapUps + 1)
    case WrapUpCompleted(_) => n.(completed := r.completed + 1)
    case Hangup(_, _) => n.(hangups := r.hangups + 1)
    case _ => n
  }

  /** The record of a whole transcript. */
  function Replay(t: seq<Event>, maxActivations: int): Record {
    if t == [] then BLANK else Advance(Replay(t[..|t| - 1], maxActivations), t[|t| - 1], maxActivations)
  }

  predicate WellOrdered(t: seq<Event>, maxActivations: int) {
    Replay(t, maxActivations).ok
  }

  // ----- what a well-ordered transcript guarantees, event by event ------------

  lemma {:induction false} WellOrderedAt(t: seq<Event>, maxActivations: int, i: nat)
    requires WellOrdered(t, maxActivations) && i < |t|
    ensures Admissible(Replay(t[..i], maxActivations), t[i], maxActivations)
  {
    if i < |t| - 1 {
      WellOrderedAt(t[..|t| - 1], maxActivations, i);
      assert t[..|t| - 1][..i] == t[..i];
    }
  }

  lemma AdvanceGrows(r: Record, e: Event, maxActivations: int)
    ensures var n := Advance(r, e, maxActivations);
            && n.greetings == r.greetings + (if e.Greeting? then 1 else 0)
            && n.hangups == r.hangups + (if e.Hangup? then 1 else 0)
            && n.wrapUps == r.wrapUps + (if e.WrapUpStarted? then 1 else 0)
  {
  }

  /** Recorded events stay recorded. */
  lemma {:induction false} ReplayGrows(t: seq<Event>, maxActivations: int, i: nat)
    requires i < |t|
    ensures t[i].Hangup? ==> Replay(t, maxActivations).hangups > 0
    ensures t[i].WrapUpStarted? ==> Replay(t, maxActivations).wrapUps > 0
  {
    var front := t[..|t| - 1];
    AdvanceGrows(Replay(front, maxActivations), t[|t| - 1], maxActivations);
    if i < |t| - 1 {
      ReplayGrows(front, maxActivations, i);
    }
  }

  /** Nothing follows a hangup, so a transcript holds at most one. */
  lemma HangupIsLast(t: seq<Event>, maxActivations: int, i: nat, j: nat)
    requires WellOrdered(t, maxActivations) && i < j < |t|
    ensures !t[i].Hangup?
  {
    WellOrderedAt(t, maxActivations, j);
    ReplayGrows(t[..j], maxActivations, i);
  }

  /** Wrap-up is one-way: it starts at most once and no silence activation follows it. */
  lemma WrapUpIsOneWay(t: seq<Event>, maxActivations: int, i: nat, j: nat)
    requires WellOrdered(t, maxActivations) && i < j < |t| && t[i].WrapUpStarted?
    ensures !t[j].WrapUpStarted? && !t[j].SilenceActivation?
  {
    WellOrderedAt(t, maxActivations, j);
    ReplayGrows(t[..j], maxActivations, i);
  }

  function Activations(t: seq<Event>): seq<nat> {
    if t == [] then []
    else Activations(t[..|t| - 1]) + if t[|t| - 1].SilenceActivation? then [t[|t| - 1].index] else []
  }

  /** The activation indices of a call are 0, 1, 2, ... below the limit. */
  lemma {:induction false} ActivationsCountUp(t: seq<Event>, maxActivations: int)
    requires WellOrdered(t, maxActivations)
    ensures |Activations(t)| == Replay(t, maxActivations).activations <= if maxActivations > 0 then maxActivations else 0
    ensures forall k :: 0 <= k < |Activations(t)| ==> Activations(t)[k] == k
  {
    if t != [] {
      ActivationsCountUp(t[..|t| - 1], maxActivations);
    }
  }

  /** Every barge-in comes after the greeting was recorded. */
  lemma InterruptionsFollowGreeting(t: seq<Event>, maxActivations: int, i: nat) returns (j: nat)
    requires WellOrdered(t, maxActivations) && i < |t| && t[i].Interruption?
    ensures j < i && t[j].Greeting?
  {
    WellOrderedAt(t, maxActivations, i);
    j := GreetingIndex(t[..i], maxActivations);
  }

  lemma {:induction false} GreetingIndex(t: seq<Event>, maxActivations: int) returns (j: nat)
    requires Replay(t, maxActivations).greetings > 0
    ensures j < |t| && t[j].Greeting?
  {
    j := |t| - 1;
    AdvanceGrows(Replay(t[..j], maxActivations), t[j], maxActivations);
    if !t[j].Greeting? {
      j := GreetingIndex(t[..|t| - 1], maxActivations);
    }
  }

  /** The conversation events of a transcript, as speaker and text. */
  function DialogOf(t: seq<Event>): seq<Turn> {
    if t == [] then []
    else
      (if t[0].Greeting? || t[0].AiReply? then [Turn(false, t[0].text)]
       else if t[0].UserSpeech? then [Turn(true, t[0].text)]
       else []) + DialogOf(t[1..])
  }

  /** The recorded dialog is exactly the projection of the transcript on its conversation events. */
  lemma {:induction false} DialogIsProjection(t: seq<Event>, maxActivations: int)
    ensures Replay(t, maxActivations).dialog == DialogOf(t)
  {
    if t != [] {
      DialogIsProjection(t[..|t| - 1], maxActivations);
      DialogAppend(t[..|t| - 1], t[|t| - 1]);
      assert t == t[..|t| - 1] + [t[|t| - 1]];
    }
  }

  lemma {:induction false} DialogAppend(t: seq<Event>, e: Event)
    ensures DialogOf(t + [e]) == DialogOf(t) + DialogOf([e])
  {
    if t != [] {
      DialogAppend(t[1..], e);
      assert (t + [e])[1..] == t[1..] + [e];
    }
  }
}
