/** When to break a silence and when to end the wrap-up phase. */
module Pacing {
  import opened Text

  datatype SilenceConfig = SilenceConfig(
    thresholdMs: int,
    maxActivations: int,
    phrases: seq<string>,
    hangupPhrase: string,
    wrapUpHangupMs: int)

  datatype SilenceDecision = Wait | Activate(phrase: string) | HangUp(phrase: string)

  /** How long one listening window lasts. */
  function WindowMs(config: SilenceConfig, inWrapUp: bool): int {
    if inWrapUp then config.wrapUpHangupMs else config.thresholdMs
  }

  function EvaluateSilence(elapsedMs: int, activations: nat, config: SilenceConfig, inWrapUp: bool): (r: SilenceDecision)
    // a window that has not expired decides nothing, an expired one always does
    ensures r.Wait? <==> elapsedMs < WindowMs(config, inWrapUp)
    // the reactivation ladder has `maxActivations` rungs and belongs to the main phase
    ensures r.Activate? ==> !inWrapUp && activations < config.maxActivations
    ensures inWrapUp && r.HangUp? ==> r.phrase == ""
    ensures !inWrapUp && r.HangUp? ==> activations >= config.maxActivations && r.phrase == config.hangupPhrase
    // a short phrase list is used in order, then its last phrase repeats
    ensures r.Activate? && config.phrases != [] ==> r.phrase in config.phrases
    ensures r.Activate? && activations < |config.phrases| ==> r.phrase == config.phrases[activations]
    ensures r.Activate? && activations >= |config.phrases| > 0 ==> r.phrase == config.phrases[|config.phrases| - 1]
  {
    if inWrapUp then
      if elapsedMs >= config.wrapUpHangupMs then HangUp("") else Wait
    else if elapsedMs < config.thresholdMs then Wait
    else if activations >= config.maxActivations then HangUp(config.hangupPhrase)
    else if config.phrases == [] then Activate("")
    else Activate(config.phrases[if activations < |config.phrases| then activations else |config.phrases| - 1])
  }

  datatype WrapUpConfig = WrapUpConfig(maxRounds: int, maxSeconds: int, refereeEnabled: bool)

  datatype WrapUpDecision = Proceed | MaxRounds | MaxSeconds

  /** `elapsed` is the time since wrap-up started, absent when it never did. */
  function EvaluateWrapUp(rounds: nat, elapsed: Option<real>, config: WrapUpConfig): (r: WrapUpDecision)
    ensures r.Proceed? <==> rounds < config.maxRounds && (elapsed.Some? ==> elapsed.value < config.maxSeconds as real)
    ensures r.MaxSeconds? ==> rounds < config.maxRounds
  {
    if rounds >= config.maxRounds then MaxRounds
    else if elapsed.Some? && elapsed.value >= config.maxSeconds as real then MaxSeconds
    else Proceed
  }
}
