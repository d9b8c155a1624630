/** The pre-reply gate: referee categories -> decider action -> one route for the turn. */
module Routing {
  import opened Text

  /** A turn's route. The source spells these as "main", "closing", "recovery", "restructure",
      "persona:<name>" and anything else an operator may have typed. */
  datatype Route = Main | Closing | Recovery | Revoice | Persona(name: string) | Other(name: string)

  /** `category` is absent when the referee failed open (timeout, error, unusable output). */
  datatype RefereeResult = RefereeResult(referee: string, category: Option<string>)

  datatype Target = ToGoalAchieved | ToTransfer | ToCustomerDecline | ToUnknown
  datatype Destination = ToClosing | ToRecovery | ToNamed(name: string)
  datatype ThenState = WrappingUp | Activating | Listen | AnyState(name: string)

  /** Optional fields are absent when the configured value is missing or empty. */
  datatype RuleAction =
    | TransitionAction(to: Target, goalType: Option<string>)
    | RouteAction(destination: Destination, goalType: Option<string>, thenState: Option<ThenState>)
    | ToolAction(alias: string, closingPhrase: Option<string>)
    | UnknownAction

  datatype Rule = Rule(referee: Option<string>, matching: seq<string>, action: RuleAction)

  datatype Verdict =
    | Continue
    | Restructure
    | Act(action: RuleAction)

  datatype DeciderAction = DeciderAction(verdict: Verdict, matchedRule: Option<Rule>)

  datatype ToolKind = HangupTool | TransferTool | OtherTool
  datatype Tool = Tool(kind: ToolKind, closingPhrase: Option<string>)

  datatype PipelineConfig = PipelineConfig(
    rules: seq<Rule>,
    personas: seq<string>,
    fanoutCap: int,
    tools: map<string, Tool>,
    failOpenRoute: Option<Route>,
    autoRestructure: bool,
    hasRestructureSlot: bool,
    gateCategory: string,
    maxContinuousRestructure: int,
    defaultReplies: seq<string>)

  // ----- decider -----------------------------------------------------------

  /** One category per label; a repeated label keeps its last result. */
  function Categories(results: seq<RefereeResult>): map<string, Option<string>> {
    if results == [] then map[]
    else
      var last := results[|results| - 1];
      Categories(results[..|results| - 1])[last.referee := last.category]
  }

  predicate Matches(rule: Rule, categories: map<string, Option<string>>) {
    && rule.referee.Some?
    && rule.referee.value in categories
    && categories[rule.referee.value].Some?
    && categories[rule.referee.value].value in rule.matching
  }

  function ActionOf(rule: Rule): DeciderAction {
    DeciderAction(if rule.action.UnknownAction? then Continue else Act(rule.action), Some(rule))
  }

  function Scan(categories: map<string, Option<string>>, rules: seq<Rule>): DeciderAction {
    if rules == [] then DeciderAction(Continue, None)
    else if Matches(rules[0], categories) then ActionOf(rules[0])
    else Scan(categories, rules[1..])
  }

  function Decide(results: seq<RefereeResult>, rules: seq<Rule>): DeciderAction {
    Scan(Categories(results), rules)
  }

  predicate FirstMatch(results: seq<RefereeResult>, rules: seq<Rule>, i: nat) {
    && i < |rules| && Matches(rules[i], Categories(results))
    && forall k :: 0 <= k < i ==> !Matches(rules[k], Categories(results))
  }

  /** First match wins: the action is that of the least matching index, or `Continue` when no rule matches. */
  lemma {:induction false} DecideFirstMatch(results: seq<RefereeResult>, rules: seq<Rule>, i: nat)
    ensures Decide(results, rules) == DeciderAction(Continue, None)
            <==> forall k :: 0 <= k < |rules| ==> !Matches(rules[k], Categories(results))
    ensures FirstMatch(results, rules, i) ==> Decide(results, rules) == ActionOf(rules[i])
    decreases |rules|
  {
    if rules != [] && !Matches(rules[0], Categories(results)) {
      var rest := rules[1..];
      assert forall k :: 0 < k < |rules| ==> rules[k] == rest[k - 1];
      assert forall k :: 0 <= k < |rest| ==> rest[k] == rules[k + 1];
      DecideFirstMatch(results, rest, if i > 0 then i - 1 else 0);
    }
  }

  // ----- the filler-gated restructure override -----------------------------

  predicate GateFiller(results: seq<RefereeResult>, config: PipelineConfig) {
    exists r :: r in results && r.category == Some(config.gateCategory)
  }

  /** The verdict of the turn: `decide`, then the override that resumes an interrupted line. */
  function TurnVerdict(results: seq<RefereeResult>, config: PipelineConfig, remainder: Option<string>): DeciderAction {
    var action := Decide(results, config.rules);
    if && GateFiller(results, config)
       && action.verdict.Continue?
       && config.autoRestructure
       && config.hasRestructureSlot
       && remainder.Some?
    then DeciderAction(Restructure, None)
    else action
  }

  // ----- route selection ---------------------------------------------------

  datatype Selection =
    | Dialogue(route: Route, thenState: Option<ThenState>, goalType: string, fromRemainder: bool)
    | ToolRoute(tool: ToolKind, closingPhrase: Option<string>)

  function OrElse<T>(a: Option<T>, b: T): T {
    if a.Some? then a.value else b
  }

  function FailOpenRoute(config: PipelineConfig): Route {
    OrElse(config.failOpenRoute, Main)
  }

  function FailOpen(config: PipelineConfig): Selection {
    Dialogue(FailOpenRoute(config), None, "", false)
  }

  predicate Runnable(alias: string, config: PipelineConfig) {
    alias in config.tools && !config.tools[alias].kind.OtherTool?
  }

  function SelectRoute(verdict: Verdict, config: PipelineConfig): Selection {
    match verdict
    case Restructure => Dialogue(Revoice, Some(Listen), "", true)
    case Act(TransitionAction(ToGoalAchieved, goal)) => Dialogue(Closing, Some(WrappingUp), OrElse(goal, ""), false)
    case Act(TransitionAction(ToTransfer, _)) => ToolRoute(TransferTool, None)
    case Act(TransitionAction(ToCustomerDecline, _)) => Dialogue(Recovery, Some(Activating), "", false)
    case Act(RouteAction(ToClosing, goal, next)) =>
      Dialogue(Closing, Some(OrElse(next, WrappingUp)), OrElse(goal, ""), false)
    case Act(RouteAction(ToRecovery, goal, next)) =>
      Dialogue(Recovery, Some(OrElse(next, Activating)), OrElse(goal, ""), false)
    case Act(RouteAction(ToNamed(name), _, next)) =>
      if name in config.personas then Dialogue(Persona(name), next, "", false) else FailOpen(config)
    case Act(ToolAction(alias, phrase)) =>
      if !Runnable(alias, config) then FailOpen(config)
      else ToolRoute(config.tools[alias].kind, if phrase.Some? then phrase else config.tools[alias].closingPhrase)
    case _ => FailOpen(config)
  }

  /** No referee produced a usable category. */
  predicate AllFailedOpen(results: seq<RefereeResult>) {
    forall r :: r in results ==> r.category.None?
  }

  lemma {:induction false} NoUsableCategory(results: seq<RefereeResult>)
    requires AllFailedOpen(results)
    ensures forall l :: l in Categories(results) ==> Categories(results)[l].None?
  {
    if results != [] {
      assert results[|results| - 1] in results;
      NoUsableCategory(results[..|results| - 1]);
    }
  }

  /** When every referee fails open, whatever the rules and the pending remainder are, the turn takes
      the configured fail-open dialogue route. */
  lemma AllFailOpenSelectsDialogue(results: seq<RefereeResult>, config: PipelineConfig, remainder: Option<string>)
    requires AllFailedOpen(results)
    ensures SelectRoute(TurnVerdict(results, config, remainder).verdict, config) == FailOpen(config)
  {
    NoUsableCategory(results);
    DecideFirstMatch(results, config.rules, 0);
  }

  /** The verdicts that name no usable route. */
  predicate Unroutable(verdict: Verdict, config: PipelineConfig) {
    match verdict
    case Restructure => false
    case Act(TransitionAction(to, _)) => to.ToUnknown?
    case Act(RouteAction(to, _, _)) => to.ToNamed? && to.name !in config.personas
    case Act(ToolAction(alias, _)) => !Runnable(alias, config)
    case _ => true
  }

  /** The verdict asks for the closing reply. */
  predicate AsksClosing(verdict: Verdict) {
    verdict.Act? &&
    match verdict.action
    case TransitionAction(to, _) => to.ToGoalAchieved?
    case RouteAction(to, _, _) => to.ToClosing?
    case _ => false
  }

  predicate AsksTool(verdict: Verdict, config: PipelineConfig) {
    verdict.Act? &&
    match verdict.action
    case TransitionAction(to, _) => to.ToTransfer?
    case ToolAction(alias, _) => Runnable(alias, config)
    case _ => false
  }

  /** The state a rule asks for by name. */
  function AskedState(verdict: Verdict): Option<ThenState> {
    if verdict.Act? && verdict.action.RouteAction? then verdict.action.thenState else None
  }

  /** Read by outcome: a tool runs exactly if one was asked for; the closing reply is given exactly if asked for or
      configured for failing open; wrap-up follows a closing that asks for nothing else, or whatever a routable
      rule's own state asks; a persona that speaks is a configured one or the fail-open route. */
  lemma RoutesReached(verdict: Verdict, config: PipelineConfig)
    ensures var sel := SelectRoute(verdict, config);
      sel.ToolRoute? <==> AsksTool(verdict, config)
    ensures var sel := SelectRoute(verdict, config);
      sel.Dialogue? && sel.route.Closing? <==>
        AsksClosing(verdict) || (Unroutable(verdict, config) && config.failOpenRoute == Some(Closing))
    ensures var sel := SelectRoute(verdict, config);
      sel.Dialogue? && sel.thenState == Some(WrappingUp) <==>
        !Unroutable(verdict, config) && (AskedState(verdict) == Some(WrappingUp) || (AsksClosing(verdict) && AskedState(verdict).None?))
    ensures var sel := SelectRoute(verdict, config);
      sel.Dialogue? && sel.route.Persona? ==> sel.route.name in config.personas || Some(sel.route) == config.failOpenRoute
    ensures var sel := SelectRoute(verdict, config);
      Unroutable(verdict, config) ==> sel == FailOpen(config)
  {
  }

  /** The override fires. */
  predicate Resumes(results: seq<RefereeResult>, config: PipelineConfig, remainder: Option<string>) {
    && Decide(results, config.rules).verdict.Continue?
    && GateFiller(results, config)
    && config.autoRestructure && config.hasRestructureSlot
    && remainder.Some?
  }

  /** A turn takes the restructure route exactly when the override fires, or nothing was routable and the
      operator set the fail-open route to the literal "restructure". The override in turn needs a
      `Continue` verdict, which a matched rule gives only if its action type is unknown. */
  lemma RestructureRouteIff(results: seq<RefereeResult>, config: PipelineConfig, remainder: Option<string>)
    ensures var action := Decide(results, config.rules);
            var sel := SelectRoute(TurnVerdict(results, config, remainder).verdict, config);
            && (sel.Dialogue? && sel.fromRemainder <==> Resumes(results, config, remainder))
            && (sel.Dialogue? && sel.route.Revoice?
                <==> || Resumes(results, config, remainder)
                     || (Unroutable(action.verdict, config) && config.failOpenRoute == Some(Revoice)))
            && (action.verdict.Continue?
                <==> || (forall k :: 0 <= k < |config.rules| ==> !Matches(config.rules[k], Categories(results)))
                     || (action.matchedRule.Some? && action.matchedRule.value.action.UnknownAction?))
  {
    DecideFirstMatch(results, config.rules, 0);
    ScanVerdict(Categories(results), config.rules);
  }

  lemma {:induction false} ScanVerdict(categories: map<string, Option<string>>, rules: seq<Rule>)
    ensures var a := Scan(categories, rules);
            && !a.verdict.Restructure?
            && (a.matchedRule.Some? ==> a == ActionOf(a.matchedRule.value))
            && (a.matchedRule.None? ==> a.verdict.Continue?)
  {
    if rules != [] && !Matches(rules[0], categories) {
      ScanVerdict(categories, rules[1..]);
    }
  }

  /** The override is not limited to turns where no rule matched: a matched rule of unknown type lets it through. */
  lemma MatchedRuleCanRestructure(config: PipelineConfig, referee: string, remainder: string)
    requires config.autoRestructure && config.hasRestructureSlot
    requires config.rules == [Rule(Some(referee), [config.gateCategory], UnknownAction)]
    ensures var results := [RefereeResult(referee, Some(config.gateCategory))];
            && Matches(config.rules[0], Categories(results))
            && TurnVerdict(results, config, Some(remainder)).verdict.Restructure?
  {
    var r := RefereeResult(referee, Some(config.gateCategory));
    assert Categories([r]) == map[referee := r.category];
    assert config.gateCategory in config.rules[0].matching;
    assert r in [r];
  }
}
