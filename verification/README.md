# Verified model of the call engine

A Dafny model of the parts of the real-time call engine whose correctness rests on many functions or many
interleavings, with proofs. `dafny verify dfyconfig.toml` checks everything.

Two forms recur. An object that the engine updates in place is a class whose methods, loops included, are proved
against functions on values. A protocol between coroutines is a state, a datatype of the atomic steps between two
awaits, `Enabled` and `Apply`, and lemmas about every sequence of steps. In `Streaming`, `EdgeRegistry`,
`EdgeOutbound`, `Playout` and `EventBus` each step is a method of the class, proved to perform it, so the object
interleaves as the calls of its methods do; the cache's concurrent syntheses in `TtsCache` are a protocol on values
around the store. Everything the outside world decides (speech, silence, hang-ups, verdicts, failures, the
points at which playback is cut) is universally quantified input.

| file | models |
|---|---|
| `Calls.dfy`, `Sessions.dfy`, `Transcripts.dfy`, `Routing.dfy`, `Pacing.dfy` | the call driver: session fields, status machine, transcript, barge-in latch, gated turns, restructure, wrap-up, silence |
| `Scenarios.dfy` | whole calls of that driver, event by event, that show what the differences below amount to |
| `Streaming.dfy` | one streamed reply: eager generation, replay, synthesis producer, player, teardown |
| `EdgeRegistry.dfy`, `EdgeOutbound.dfy` | the registry of edge streams with reconnects and device routes, and a stream's outbound queue |
| `Playout.dfy`, `Framing.dfy`, `Ambient.dfy` | the outbound audio: framing, playout queue and pump, fade-out, mixing, the background loop |
| `EventBus.dfy` | the two-lane event bus |
| `AsrFrames.dfy`, `RtcToken.dfy`, `Bytes.dfy` | the recogniser's binary frames and the media token's byte layout |
| `TtsCache.dfy`, `SentenceSplitter.dfy`, `RingBuffer.dfy` | the phrase cache, the sentence splitter, the native frame buffer |
| `Text.dfy` | optional values, `strip`, concatenation |

## Where the code and its description differ

The model follows the code. Each difference is stated as an exact condition.

- The filler-gated resume is described as occupying only the no-match slot. A matched rule of an unknown action type
  lets it through as well, and the literal fail-open route "restructure" reaches the restructure branch without it
  (`Routing.RestructureRouteIff`, `Routing.MatchedRuleCanRestructure`).
- The remainder hygiene is described as never leaking a remainder into a later turn. A line also survives a turn
  aborted at the gate, a listen-only cue, a farewell played to its end and a capped resume, and can be resumed turns
  later (`Sessions.RemainderHygiene`, `Scenarios.StaleLineIsResumed`, `Scenarios.CappedResumeKeepsTheLine`).
- A restructure is described as re-voicing the interrupted line. Reached through the fail-open route "restructure" it
  re-voices the last reply (`Sessions.RevoicedIsTheRemainder`, `Scenarios.LastReplyIsRevoiced`).
- A repeated persona label leaves an earlier candidate running that nothing can cancel (`Sessions.LeakIffDuplicate`).
- The barge-in remainder omits the sentence the producer holds while the job queue is full
  (`Streaming.RemainderIsUnplayed`, `Streaming.DroppedIff`, `Streaming.ASentenceIsDropped`).
- Closing a stream whose outbound queue is full pushes no sentinel, and the iterator never tests the closed flag, so
  it does not end (`EdgeOutbound.EndsIffRoomAtClose`).
- A heartbeat read by a displaced handler after its successor left routes a device to an edge without a stream until
  that handler cleans up (`EdgeRegistry.ReachableUnlessLate`, `EdgeRegistry.RouteWithoutAStream`).
- A delivery suspended in the dispatcher when the bus closes loses its remaining handlers
  (`EventBus.CloseCompletesIffIdle`, `EventBus.SuspendedDeliveryIsLost`).
- A playback is described as complete once its frames are consumed. After a pump was cancelled with a frame in its
  hand, or a pump cancelled or ended with frames still queued while flushes fade out, the unfinished count stays
  above zero for ever (`Playout.JoinAfterCancelIff`, `Playout.JoinAfterLeavingIff`, `Playout.QueuedFrameBlocksJoin`).
- The abort at the gate is described as answering a second utterance instead. A barge-in on a silence phrase, or heard
  as a playback ends, is still latched when its own utterance reaches the gate, and that utterance goes unanswered
  (`Sessions.UnansweredIff`, `Scenarios.AnswerToSilenceIsDropped`).
- A recogniser frame cut before its payload raises the unpacking error instead of the documented one for short
  frames, and a payload cut short goes unnoticed (`AsrFrames.DecodesIff`).
- A fade over a single sample leaves it unchanged (`Ambient.FadeShape`).
- The splitter's comment keeps a closing quote with the sentence it closes; the code starts the next piece with it
  (`SentenceSplitter.NothingFollowsATerminator`).

## Model

| member | source | states |
|---|---|---|
| `Transcripts.LegalPathIsShort` | isales_engine/state_machine.py:49-62 | A path of legal transitions changes status at most three times and never leaves END |
| `Transcripts.HangupIsLast` | isales_engine/run_loop.py:697-735 | In a well-ordered transcript no event follows a hangup, so there is at most one |
| `Transcripts.WrapUpIsOneWay` | isales_engine/run_loop.py:1733-1743 | After `wrap_up_started` there is neither another one nor a silence activation |
| `Transcripts.ActivationsCountUp` | isales_engine/run_loop.py:737-751 | The activation indices of a call are 0, 1, 2, ... and stay below the limit |
| `Transcripts.InterruptionsFollowGreeting` | isales_engine/run_loop.py:225-236 | In a well-ordered transcript every barge-in comes after the greeting event; `Calls.CallSession.Open` adds the playback |
| `Transcripts.DialogIsProjection` | isales_engine/call_session.py:247-254 | The dialog history is exactly the projection of the transcript on its conversation events |
| `Routing.DecideFirstMatch` | isales_engine/pipeline/decider.py:48-106 | First match wins: the action is that of the least matching rule, and `continue` without a matched rule exactly when none matches |
| `Routing.AllFailOpenSelectsDialogue` | isales_engine/run_loop.py:1350-1419 | If every referee failed open, the selection is the fail-open dialogue route, whatever the rules and the pending remainder |
| `Routing.RoutesReached` | isales_engine/run_loop.py:1350-1419 | Read by outcome: exactly which verdicts run a tool, give the closing reply or start wrap-up; a speaking persona is configured; the unroutable fails open |
| `Routing.RestructureRouteIff` | isales_engine/run_loop.py:1532-1569 | Exactly when a turn takes the restructure route: the filler-gated override fires, or nothing is routable and the fail-open route is the literal "restructure"; and exactly when the decider says `continue` |
| `Routing.MatchedRuleCanRestructure` | isales_engine/pipeline/decider.py:100-101 | A matched rule of an unknown action type also lets the override through |
| `Pacing.EvaluateSilence` | isales_engine/realtime/silence_detector.py:46-75 | An expired window always decides, an unexpired one never; the ladder belongs to the main phase and has `max_activations` rungs |
| `Pacing.EvaluateWrapUp` | isales_engine/wrapup/manager.py:46-69 | Wrap-up proceeds exactly below both limits; the round limit is reported first |
| `Sessions.CombineFinals` | isales_engine/run_loop.py:962-972 | Queued finals are folded into one utterance: the stripped non-empty texts joined by a space |
| `Sessions.LeakIffDuplicate` | isales_engine/run_loop.py:1463-1497 | Every started candidate keeps an entry, hence can be cancelled, exactly when the persona labels are distinct |
| `Sessions.FindLastReply` | isales_engine/run_loop.py:1934-1937 | The last non-blank thing the assistant said, searched backwards |
| `Calls.CallSession.AppendEvent` | isales_engine/call_session.py:218-254 | Transcript, dialog and the record of the events advance together |
| `Calls.CallSession.TransitionTo` | isales_engine/state_machine.py:89-129 | Same status: no change; legal: one step of the history; otherwise a warning first, and still the step |
| `Calls.CallSession.Monitor` | isales_engine/run_loop.py:2122-2183 | The partial monitor latches the first barge-in it hears while a reply is generated or played, and no other |
| `Calls.CallSession.Play` | isales_engine/run_loop.py:2032-2070 | A playback is cut exactly by the barge-in heard while its task runs; one heard later only latches |
| `Calls.CallSession.Open` | isales_engine/run_loop.py:205-236 | Nothing said during the greeting is recorded or cuts it: the whole session is pinned, the transcript is the greeting alone, and the monitors start once it was played |
| `Sessions.CutIff` | isales_engine/run_loop.py:1138-1186 | A reply is cut at a sentence exactly if that is the first one that fails or hears anything, does not fail, and is interrupted while it plays |
| `Calls.CallSession.PlaySentences` | isales_engine/run_loop.py:1138-1186 | The sentence loop has exactly the course the sentences determine: played or cut, where, by what |
| `Calls.CallSession.PlayStreaming` | isales_engine/run_loop.py:1052-1229 | Played, cut or raised exactly as the sentences determine; a cut captures the rest the teardown found, unless the stream is a restructure; for a stream of the protocol that is the unplayed part, from the sentence cut off here on |
| `Calls.CallSession.PerformHandoff` | isales_engine/run_loop.py:1232-1264 | A hand-off ends the call as marked for handoff, or leaves it live in TRANSFERRING when the phrase raises |
| `Calls.CallSession.RestructureTurn` | isales_engine/run_loop.py:1629-1660 | Capped: run reset, remainder kept. Otherwise re-voices the remainder asked for or the last reply, and counts it |
| `Calls.CallSession.AfterGate` | isales_engine/run_loop.py:1532-1745 | From the referee results to one released route or the end of the call; whether it goes on, ends or raises is a function of the inputs, and every candidate is cancelled unless it raises |
| `Calls.CallSession.RunGatedTurn` | isales_engine/run_loop.py:1435-1745 | Whether the turn goes on, ends the call or raises, and what it leaves, from its inputs; it starts at most three candidates, and whether it goes on or ends the call only leaked ones still run |
| `Calls.CallSession.DialogueTurn` | isales_engine/run_loop.py:1684-1745 | The transcript grows exactly by filler and default reply, the barge-in heard, and the reply with its closing flags; a cut one absorbs the barge-in, one played to its end resets both runs, may start wrap-up and leaves a late barge-in latched |
| `Calls.CallSession.WrapUpReply` | isales_engine/run_loop.py:1776-1882 | A cut farewell costs no round; a played one costs one and goes on only below both limits |
| `Calls.CallSession.AfterFarewell` | isales_engine/run_loop.py:1843-1882 | Goes on exactly without a dismissal and below both limits; otherwise the recorded end names the dismissal or the limit reached |
| `Calls.CallSession.Reactivate` | isales_engine/run_loop.py:737-751 | The whole session after the phrase: indexed event, count up by one, remainder kept, a barge-in on the phrase latched |
| `Calls.CallSession.SilenceHangup` | isales_engine/run_loop.py:714-735 | A silence hang-up records whether it ended the wrap-up or the main phase |
| `Calls.CallSession.UserTurn` | isales_engine/run_loop.py:762-888 | The utterance is recorded first; keyword transfer, listen-only cue, farewell or gated turn then have the outcome their inputs determine; a turn that ends the call leaves no candidate running if labels are distinct |
| `Calls.CallSession.SilentTurn` | isales_engine/run_loop.py:985-995 | Whether it goes on, ends or raises from the inputs; an expired window climbs one rung or ends the call, with the session pinned |
| `Sessions.SilenceKeepsTheLine` | isales_engine/run_loop.py:737-751 | A silent round keeps the remainder, and leaves the latch set exactly if it was or its phrase was barged in on |
| `Calls.CallSession.RunRound` | isales_engine/run_loop.py:697-890 | Each turn of the loop leaves the call listening, ended, or live with an exception under way; an utterance worth a turn is recorded, any other final changes nothing |
| `Calls.CallSession.MainTurnLoop` | isales_engine/run_loop.py:697-890 | However user turns and silences alternate, a call that goes on has had at most max_activations - count expired windows in its main phase, each counted once |
| `Calls.CallSession.RunSession` | isales_engine/run_loop.py:177-261 | Every uncancelled run: legal status path, no state warning, the greeting first; a finished call is in END with a cause and exactly one hangup, the last event, and unless an exception ended it no speculative generation runs on |
| `Sessions.LiveCall` | isales_engine/run_loop.py:2172-2183 | At every await: interruptions = absorbed + latched, at least as many as cut playbacks; legal history; wrap-up rounds, restructures and activations within their limits; the remainder stripped and non-empty |
| `Sessions.EndedCall` | isales_engine/run_loop.py:249-261 | An ended call: END by a legal path, a cause that fits the recorded reason, one hangup, last |
| `Sessions.RevoicedIsTheRemainder` | isales_engine/run_loop.py:1918-1937 | A re-voiced text is the captured remainder, then cleared, exactly if the gate resumed; otherwise it is the last reply and the fail-open route is "restructure" |
| `Scenarios.LastReplyIsRevoiced` | isales_engine/run_loop.py:1934-1937 | A call in which an utterance without verdicts makes the greeting be re-voiced |
| `Sessions.PlayerFollows` | isales_engine/run_loop.py:1138-1186 | In every run of the streaming protocol whose player follows the playbacks, the player stops after as many sentences as they say |
| `Sessions.TeardownMatchesPlayback` | isales_engine/run_loop.py:1187-1228 | Hence the teardown of a stream finds it cut exactly if its playbacks do, after as many sentences, and captures what is left; a default reply stood in for a blank one |
| `Sessions.ResumedLineIsTheUnspoken` | isales_engine/run_loop.py:1187-1228 | From the cut to the resume: what is re-voiced is the reply from the cut-off sentence on, in order, without the at most one sentence the producer held |
| `Sessions.OneReplyATurn` | isales_engine/pipeline/orchestrator.py:253-286 | A user turn that goes on records exactly one reply if it plays one, else none, and a default reply exactly if that one fell back on it; the other candidates record nothing |
| `Sessions.UnansweredIff` | isales_engine/run_loop.py:1512-1530 | An utterance of the main phase goes unanswered exactly if it is only cued, a barge-in is latched before the gate resolves, or a restructure is capped or has nothing to re-voice |
| `Scenarios.AnswerToSilenceIsDropped` | isales_engine/run_loop.py:737-751 | A call in which the caller answers over a silence phrase and gets no reply, whatever the models say |
| `Sessions.RemainderHygiene` | isales_engine/run_loop.py:1562-1568 | The remainder after every user turn that goes on, from its inputs: the old line survives a listen-only cue, an abort at the gate, a farewell played to its end and a capped resume (with the switch off, all but a cut); else it is what the turn captured, or none |
| `Scenarios.StaleLineIsResumed` | isales_engine/run_loop.py:1520-1530 | A call, event by event, in which a line outlives an aborted turn and is re-voiced by the turn after it |
| `Scenarios.CappedResumeKeepsTheLine` | isales_engine/run_loop.py:1631-1648 | A call, event by event, in which a capped resume says nothing and keeps the line |
| `Scenarios.CutShortCoheres` | isales_engine/run_loop.py:1138-1228 | The cut reply of these calls is the teardown of a run of the streaming protocol |
| `Scenarios.UninterruptedCoheres` | isales_engine/run_loop.py:1138-1228 | So is the reply played to its end |
| `Sessions.FailOpenTurn` | isales_engine/run_loop.py:1350-1419 | If every referee failed open: the call is handed over exactly if the transfer detector fires and the turn is not aborted; otherwise the turn speaks on the fail-open route, or re-voices if that is "restructure" |
| `Streaming.EveryRunConserves` | isales_engine/run_loop.py:1086-1110 | In every interleaving of generation, replay, producer and player: handed over = played ++ current ++ queued (at most 2) ++ the producer's one job, in order |
| `Streaming.RemainderIsUnplayed` | isales_engine/run_loop.py:1187-1228 | The barge-in remainder is the unplayed suffix in order without the at most one sentence the producer held; complete exactly when it held none |
| `Streaming.DroppedIff` | isales_engine/run_loop.py:1095-1101 | Over every run: a sentence goes missing exactly if it was handed over while the queue was full and the producer was cancelled before it could queue it |
| `Streaming.ASentenceIsDropped` | isales_engine/run_loop.py:1095-1101 | A run of four sentences whose fourth is in neither the playback nor the remainder |
| `Streaming.TeardownCaptures` | isales_engine/run_loop.py:1187-1228 | What the teardown of any reachable reply captures, late sentences included, is the unplayed suffix without the held sentence |
| `Streaming.CompletedReplyWasPlayedWhole` | isales_engine/pipeline/orchestrator.py:253-286 | A reply played to its sentinel was played whole; the default reply stands in exactly for a blank one |
| `Streaming.NeverStuck` | isales_engine/run_loop.py:1088-1140 | Once generation has ended, some step is possible until the player is done |
| `Streaming.RepliesEnd` | isales_engine/run_loop.py:1088-1186 | Once nothing more is generated, every run of steps is bounded by a measure of the state |
| `Streaming.StreamedReply.ReplayNext` | isales_engine/pipeline/orchestrator.py:321-338 | One turn of replay and producer refines the protocol step and keeps its invariant |
| `Streaming.StreamedReply.SendSentinel` | isales_engine/run_loop.py:1102-1110 | The producer's end, by exhaustion or exception, refines the protocol step |
| `Streaming.StreamedReply.QueueHeld` | isales_engine/run_loop.py:1091-1094 | A blocked job goes into the queue once there is room |
| `Streaming.StreamedReply.TakeNext` | isales_engine/run_loop.py:1138-1144 | Taking a job or the sentinel refines the protocol step |
| `Streaming.StreamedReply.PlayCurrent` | isales_engine/run_loop.py:1164-1186 | Playing, cutting or failing a sentence refines the protocol step |
| `Streaming.StreamedReply.DrainQueue` | isales_engine/run_loop.py:1210-1215 | The drain loop empties the queue and returns its sentences in order |
| `Streaming.StreamedReply.Teardown` | isales_engine/run_loop.py:1187-1228 | Teardown performs the protocol's stop of producer and generation and returns exactly the captured remainder, which after a barge-in is the unplayed suffix |
| `EdgeRegistry.OneOpenStreamPerEdge` | isales_engine/transport/grpc_server.py:321-335 | Over every interleaving an edge has at most one open stream in service, and it is the registry's entry |
| `EdgeRegistry.LastHandlerLeavesNothing` | isales_engine/transport/grpc_server.py:337-349 | Once the last handler of an edge has gone, neither registry nor routes mention the edge |
| `EdgeRegistry.DisplacedTeardownsKeepRoutes` | isales_engine/transport/grpc_server.py:337-349 | The teardown of displaced streams never unregisters the successor nor drops a route of the edge |
| `EdgeRegistry.ReachableUnlessLate` | isales_engine/transport/grpc_server.py:369-375 | A step keeps every route leading to a registered edge exactly unless it is a late heartbeat of a displaced handler |
| `EdgeRegistry.PunctualRunsStayReachable` | isales_engine/transport/grpc_server.py:337-375 | Over every run without a late heartbeat every device resolves to a registered edge |
| `EdgeRegistry.RouteWithoutAStream` | isales_engine/transport/grpc_server.py:369-375 | A reachable state in which a device resolves to an edge without a stream |
| `EdgeRegistry.LeavingRestores` | isales_engine/transport/grpc_server.py:337-349 | When the late handler leaves, every route leads to a registered edge again |
| `EdgeRegistry.DropRoutes` | isales_engine/transport/grpc_server.py:346-349 | The deletion loop forgets exactly the routes of one edge |
| `EdgeRegistry.RoutedByTheLastClaim` | isales_engine/transport/grpc_server.py:337-375 | Over every run: a device is routed to an edge exactly if the last heartbeat naming it came from that edge and the edge was not forgotten since |
| `EdgeRegistry.CloudEdgeServer.RegisterStream` | isales_engine/transport/grpc_server.py:321-335 | Registering performs the protocol step: the stale stream is closed and displaced |
| `EdgeRegistry.CloudEdgeServer.DeregisterStream` | isales_engine/transport/grpc_server.py:337-349 | Deregistering performs the leaving step: own entry only, routes only if no stream has taken over |
| `EdgeRegistry.CloudEdgeServer.Stop` | isales_engine/transport/grpc_server.py:216-225 | Stopping closes exactly the registered streams |
| `EdgeRegistry.CloudEdgeServer.OnHeartbeat` | isales_engine/transport/grpc_server.py:369-375 | The heartbeat loop performs the claiming of its devices for the sender's edge |
| `EdgeRegistry.CloudEdgeServer.ResolveEdgeForDevice` | isales_engine/transport/grpc_server.py:238-250 | An edge is returned exactly if the last heartbeat in the server's history that names the device is that edge's and stands; none exactly if no claim stands |
| `EdgeOutbound.DeliversInOrder` | isales_engine/transport/grpc_server.py:121-127 | The outbound iterator yields messages in queueing order, and at its end exactly those queued before the close |
| `EdgeOutbound.EndsIffRoomAtClose` | isales_engine/transport/grpc_server.py:121-141 | In every run after the first close the iterator has ended exactly if the queue had room then and it was asked once more than was queued; with room it never waits in vain |
| `EdgeOutbound.ServerStream.Send` | isales_engine/transport/grpc_server.py:110-119 | A send is accepted, blocked on the full queue, or refused after close |
| `EdgeOutbound.ServerStream.Wake` | isales_engine/transport/grpc_server.py:110-119 | A blocked send that finds room goes in, in any order among the blocked ones |
| `EdgeOutbound.ServerStream.Close` | isales_engine/transport/grpc_server.py:129-141 | Only the first close pushes a sentinel, and only with room |
| `Playout.EveryRunCounts` | isales_engine/realtime/rtc_telephony.py:435-514 | Through feeding, pushes, failures and flushes: unfinished = queued + held + abandoned, `join` can return exactly at zero of each, frames are taken in order |
| `Playout.FlushTrailsOff` | isales_engine/realtime/rtc_telephony.py:488-514 | A flush leaves min(ceil(ms/10), queued) frames, the fade of the ones that were next, at their lengths |
| `Playout.PumpDrains` | isales_engine/realtime/rtc_telephony.py:529-564 | Whatever becomes of its pushes, a running pump brings the unfinished count to zero in exactly two steps a queued frame and one for the held one, and is never stuck before |
| `Playout.JoinAfterCancelIff` | isales_engine/realtime/rtc_telephony.py:565-575 | With the fade-out window of the call in every flush: after the pump is cancelled `join` can still return exactly if the pump held no frame and either none is queued or flushes are hard cuts |
| `Playout.JoinAfterLeavingIff` | isales_engine/realtime/rtc_telephony.py:553-557 | After the pump ended because the channel was left, exactly if no frame is queued or flushes are hard cuts |
| `Playout.QueuedFrameBlocksJoin` | isales_engine/realtime/rtc_telephony.py:634-646 | A hang-up between two frames with the default window: the frame still queued blocks `join` in every run |
| `Playout.PlayoutQueue.FlushPlayout` | isales_engine/realtime/rtc_telephony.py:488-514 | Drain and re-queue refine the flush step; the count never underflows, the queue never overflows |
| `Playout.PlayoutQueue.TakeFrame` | isales_engine/realtime/rtc_telephony.py:540-546 | The pump takes the oldest frame, or silence if none is queued |
| `Playout.PlayoutQueue.AfterPush` | isales_engine/realtime/rtc_telephony.py:553-564 | Success, failure and NotJoined each report the held frame done once |
| `Playout.PlayoutQueue.CancelPump` | isales_engine/realtime/rtc_telephony.py:565-575 | Cancelling the pump performs the protocol step |
| `EventBus.ClosedBusDeliveredEverything` | isales_engine/eventbus.py:153-202 | With non-suspending handlers a closed bus has delivered every event posted before, started or not, exactly once, in post order, to every snapshotted handler |
| `EventBus.CloseCompletesIffIdle` | isales_engine/eventbus.py:177-202 | With suspending handlers every event is still taken, and calls are lost exactly if the dispatcher is cut in the middle of a delivery |
| `EventBus.SuspendedDeliveryIsLost` | isales_engine/eventbus.py:190-202 | A run in which the second of two handlers is never called |
| `EventBus.SubscribersAreCalled` | isales_engine/eventbus.py:161-175 | A handler whose subscription is left alone from some point on has, once the bus is closed, been called for each event not yet taken then exactly as often as it was subscribed: once if once, never if not |
| `EventBus.LossyLaneKeepsNewest` | isales_engine/eventbus.py:127-138 | Over any mix of posts and takes: posted = taken + queued + dropped, and the queue is the newest posts |
| `EventBus.CallBus.Post` | isales_engine/eventbus.py:116-138 | A lossless event performs the post step, a lossy one makes room by dropping the oldest; nothing after close |
| `EventBus.CallBus.Unsubscribe` | isales_engine/eventbus.py:107-110 | Unsubscribing performs the protocol step, with or without that subscription |
| `EventBus.CallBus.Fetch` | isales_engine/eventbus.py:153-163 | The dispatcher takes the oldest event with the handlers then subscribed |
| `EventBus.CallBus.Handle` | isales_engine/eventbus.py:163-175 | A handler call performs the protocol step, whatever the handler raises |
| `EventBus.CallBus.DrainFetch` | isales_engine/eventbus.py:191-196 | The closing task takes the next event as the dispatcher does, and counts it |
| `EventBus.CallBus.CancelDispatcher` | isales_engine/eventbus.py:199-202 | Cancelling performs the protocol step and loses exactly the calls still due |
| `EventBus.CallBus.DeliverNext` | isales_engine/eventbus.py:153-175 | An undisturbed delivery calls every snapshotted handler once, in order |
| `EventBus.CallBus.Aclose` | isales_engine/eventbus.py:177-202 | A close during which no other task moves delivers the whole lossless queue in order and loses what a suspended dispatcher still had to call; a second close does nothing |
| `RtcToken.NextPow2MultipleOf256` | isales_engine/transport/rtc_token.py:119-125 | The doubling loop computes the block size |
| `RtcToken.LeastBlockUnique` | isales_engine/transport/rtc_token.py:119-125 | The block size is the one least 256 * 2^k not below the length |
| `RtcToken.PadExtends` | isales_engine/transport/rtc_token.py:128-132 | Padding only appends zeros, it never cuts |
| `RtcToken.SortedSorts` | isales_engine/transport/rtc_token.py:176-182 | Sorting the options permutes them into strictly ascending key order |
| `RtcToken.WriteOptions` | isales_engine/transport/rtc_token.py:163-183 | The writing loop produces the packed options |
| `RtcToken.BodyLayout` | isales_engine/transport/rtc_token.py:313-321 | The body is its fields in order, each length before its text, each flag before what it announces, options by ascending key |
| `RtcToken.PaddedBodiesEqualIff` | isales_engine/transport/rtc_token.py:313-323 | Two padded bodies are equal exactly if they claim the same application, times, salt, channel, user, privilege and options, whatever the insertion order |
| `RtcToken.OuterIsTwiceTheBody` | isales_engine/transport/rtc_token.py:326-331 | The padded outer block is exactly twice the padded body, which can be read off it |
| `TtsCache.EvictsShortestPrefix` | isales_engine/providers/tts_cache.py:68-74 | Eviction takes the shortest oldest prefix that brings the rest within both bounds |
| `TtsCache.PutKeepsItsKey` | isales_engine/providers/tts_cache.py:57-66 | A phrase that fits on its own survives its own put as the most recent entry |
| `TtsCache.TtsCacheStore.Get` | isales_engine/providers/tts_cache.py:51-55 | A hit returns the stored chunks and makes the entry the most recent |
| `TtsCache.TtsCacheStore.Put` | isales_engine/providers/tts_cache.py:57-66 | Byte count = sum of sizes, both bounds, recency order and the exact new contents |
| `TtsCache.TtsCacheStore.Evict` | isales_engine/providers/tts_cache.py:68-74 | The eviction loop drops exactly the evicted prefix |
| `TtsCache.ListenersHearTheInner` | isales_engine/providers/tts_cache.py:99-131 | However syntheses interleave, complete, fail or are cut: each listener hears the inner synthesiser's chunks, and no truncated phrase is stored |
| `SentenceSplitter.SplitSentences` | isales_engine/streaming/sentence_splitter.py:68-104 | The loop's result depends on the concatenated text only, never on token boundaries |
| `SentenceSplitter.ScanCuts` | isales_engine/streaming/sentence_splitter.py:84-100 | The text is written as pieces cut exactly at their ends and an uncut rest |
| `SentenceSplitter.CutsAreUnique` | isales_engine/streaming/sentence_splitter.py:84-100 | That factorisation is unique |
| `SentenceSplitter.NothingFollowsATerminator` | isales_engine/streaming/sentence_splitter.py:32-35 | A terminator always ends its piece; a closing quote after it begins the next one |
| `SentenceSplitter.SentencesAreProper` | isales_engine/streaming/sentence_splitter.py:90-104 | Every sentence is non-empty, trimmed, voiceable, at most max(1, max_chars) long, with a terminator only at its end |
| `SentenceSplitter.NothingReadableIsLost` | isales_engine/streaming/sentence_splitter.py:54-104 | The letters and digits of the sentences, in order, are those of the text |
| `Framing.BlocksCover` | isales_engine/realtime/rtc_telephony.py:460-476 | Blocks and rest are the stream itself, cut at every n-th place |
| `Framing.BlocksUnique` | isales_engine/realtime/rtc_telephony.py:460-476 | No other cut into blocks of that size leaves less than one |
| `Framing.FeedPlayout` | isales_engine/realtime/rtc_telephony.py:435-483 | An uncancelled utterance is queued as its 320-byte blocks, the last zero-padded, however it was chunked, cushion or not |
| `Framing.BatchAudio` | isales_engine/providers/asr_volcengine.py:401-416 | Exactly the consecutive packets of the audio are sent and less than one is held back; with empty packets and no audio nothing is sent |
| `Framing.SendingEndsIff` | isales_engine/providers/asr_volcengine.py:408-416 | The sending loop comes to an end exactly if the packet size is positive |
| `Framing.PacketsNeedARate` | isales_engine/providers/asr_volcengine.py:401-401 | The packet size is positive exactly from 10 samples a second on |
| `AsrFrames.RoundTripIff` | isales_engine/providers/asr_volcengine.py:143-210 | Decoding undoes encoding exactly for non-error frames with a sequence just when the flags announce one and a payload gzip leaves alone |
| `AsrFrames.DecodesIff` | isales_engine/providers/asr_volcengine.py:167-193 | Decoding fails exactly on frames cut before their payload |
| `Ambient.MixFrame` | isales_engine/realtime/ambient.py:56-80 | Sample-wise mix as far as both frames reach; no change without gain |
| `Ambient.MixSaturates` | isales_engine/realtime/ambient.py:74-79 | The mix stays in range, saturates at both ends and is the speech itself over silence |
| `Ambient.ApplyFadeout` | isales_engine/realtime/ambient.py:83-107 | The fade of a run of frames is the fade of its samples, independent of the partition; lengths are kept |
| `Ambient.FadeShape` | isales_engine/realtime/ambient.py:96-107 | The fade starts at the input sample, is nowhere louder and ends at 0, except that a single sample is left alone |
| `Ambient.FadeFalls` | isales_engine/realtime/ambient.py:101-104 | At a later position the same sample is never louder |
| `Ambient.SeamBetween` | isales_engine/realtime/ambient.py:110-121 | Each seam sample lies between the two it joins, so clipping never fires |
| `Ambient.MakeSeamless` | isales_engine/realtime/ambient.py:124-143 | A loop over 640 samples is 320 shorter than the aligned recording, whole frames, body then tail faded into head |
| `Ambient.AmbientReader.NextFrame` | isales_engine/realtime/ambient.py:167-177 | The k-th frame read is block k modulo the number of whole blocks; silence if there is none |
| `RingBuffer.SoundWithoutOldest` | deploy/cloud/pybind/dingrtc_pywrap/src/ring_buffer.cpp:26-36 | Taking out the oldest frame keeps order, positions and the tally |
| `RingBuffer.SoundWithNewest` | deploy/cloud/pybind/dingrtc_pywrap/src/ring_buffer.cpp:10-24 | Adding the newest frame keeps order, positions and the tally |
| `RingBuffer.FrameRingBuffer.HeadIsModular` | deploy/cloud/pybind/dingrtc_pywrap/src/ring_buffer.cpp:20-22 | head = (tail + size) mod capacity |
| `RingBuffer.FrameRingBuffer.Push` | deploy/cloud/pybind/dingrtc_pywrap/src/ring_buffer.cpp:10-24 | Contents grow by the frame, losing the oldest exactly when full; pushed = drained + dropped + cleared + size |
| `RingBuffer.FrameRingBuffer.Drain` | deploy/cloud/pybind/dingrtc_pywrap/src/ring_buffer.cpp:26-36 | At most `max_n` frames come out, the oldest, in push order |
| `RingBuffer.FrameRingBuffer.Clear` | deploy/cloud/pybind/dingrtc_pywrap/src/ring_buffer.cpp:38-42 | Nothing is held afterwards and the frames count as cleared |

## Left out

- Redis, PostgreSQL, HTTP, WebSocket, the gRPC transport, the media SDK, settings, factories and logging.
- HMAC-SHA256, zlib and base64 of the token: the signature is any 32 bytes, the layout is modelled up to the padded outer block.
- Cancellation of the main call task: all driver results are about uncancelled runs, with strict transcript checking off.
- Timestamps, token counts, trace records, published status messages, prompt texts and the short-reply flag of a session.
- Referee text parsing, transfer classifiers, interruption rules, filler timing and phrase choice: they appear as arbitrary verdicts.
- Persona fidelity beyond the fan-out cap: such a route is selectable and is generated fresh from the main slot.
- The voice-activity monitor, the noise gate, resampling and the inbound audio path.
- IEEE rounding in mixing and fading: gains are reals; conversion to a sample truncates.
- The conversion between little-endian bytes and samples: `Ambient` and `Playout` work on samples, `Framing` on bytes.
- UTF-8: the strings of a token are its byte strings, whose order is that of the code points.
- Unicode categories: which characters can be voiced is a parameter, required only not to include white space.
- Calls.CallSession.PlayStreaming: the driver does not step the streaming protocol itself; a stream comes with the state its teardown finds, and what is said of that state holds for streams of the protocol (`Sessions.Coherent`).
- Framing.BatchAudio: audio with an empty packet, that is a sample rate below 10, is left out, because the sending loop does not end there (`Framing.SendingEndsIff`).
- RingBuffer.FrameRingBuffer.Push: requires a capacity above zero, since the code takes a remainder by it, which C++ leaves undefined at zero; every other operation is proved for capacity zero too.
- EdgeRegistry.CloudEdgeServer.RegisterStream: the lock is not a separate entity, because no holder of it suspends.
- EventBus.CallBus.Handle: a handler that itself raises the cancellation error, which stops the dispatcher, is not modelled.
- EventBus.CallBus.FetchLossy: the handler calls of the lossy lane are not logged; it delivers as the lossless one does.
- Playout.PlayoutQueue.AfterPush: the timestamp of a pushed frame is not modelled.
