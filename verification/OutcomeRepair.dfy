/** Which actions that ask for a product are accepted, and as what. */
module OutcomeRepair {

  import opened Text
  import opened TaskDemand
  import opened Routes
  import opened RouteRoundTrip
  import opened RouteTransformations

  /** The payload asks for an action and names its outcome a product. */
  predicate ActionForProduct(p: Payload) {
    && p.route.Some? && Lower(Strip(p.route.value)) == "action"
    && p.outcome.Some? && Lower(Strip(p.outcome.value)) in {"runnable_product", "durable_project"}
  }

  /** Its effects are readable, some are there, none writes or reaches outside, and it asks for tools. */
  predicate StaysLocal(p: Payload) {
    && ParseEffects(p.effects).Ok? && ParseEffects(p.effects).value != []
    && WRITE !in ParseEffects(p.effects).value && EXTERNAL !in ParseEffects(p.effects).value
    && ParseFlag(p.needsTools, false) == Ok(true)
  }

  function AsOperation(p: Payload): Payload { p.(outcome := Some("workspace_operation")) }

  lemma {:induction false} LenientIsEnabled(switches: seq<(string, Switch)>)
    requires EnabledNames(switches).Ok?
    ensures LenientNames(switches) == EnabledNames(switches).value
  {
    if switches != [] {
      LenientIsEnabled(switches[..|switches| - 1]);
    }
  }

  lemma SameNames(p: Payload)
    requires EffectNames(p.effects).Ok?
    ensures (if p.effects.Switches? then Ok(LenientNames(p.effects.switches)) else EffectNames(p.effects))
            == EffectNames(p.effects)
  {
    if p.effects.Switches? {
      LenientIsEnabled(p.effects.switches);
    }
  }

  lemma SomeParsed(names: seq<string>)
    requires ParseNames(names).Ok?
    ensures Dedup(ParseNames(names).value) == [] <==> ParseNames(names).value == []
    ensures forall e :: e in Dedup(ParseNames(names).value) <==> e in ParseNames(names).value
  {
    hide ParseNames;
    var effects := ParseNames(names).value;
    DedupElements(effects);
    if effects != [] {
      assert effects[0] in Dedup(effects);
    }
  }

  /** The repair looks at the same effects as the parser, as long as the parser can read them. */
  lemma RepairSeesEffects(p: Payload)
    requires ParseEffects(p.effects).Ok?
    ensures LocalOperation(p) <==> StaysLocal(p)
  {
    hide ParseNames, ParseFlag, EffectNames, LenientNames, Dedup;
    SameNames(p);
    SomeParsed(EffectNames(p.effects).value);
  }

  lemma ProductTokens(p: Payload)
    requires ActionForProduct(p)
    ensures TokenOf(p.route) == RouteName(Action) && DropGoalResponse(p) == p
    ensures TokenOf(p.outcome) == OutcomeName(RunnableProduct) || TokenOf(p.outcome) == OutcomeName(DurableProject)
    ensures ContractOutcome(p) == if LocalOperation(p) then AsOperation(p) else p
  {
    hide LocalOperation, Strip, Lower;
    RoutesAreDistinct(Action);
  }

  lemma OperationNeedsNoRepair(p: Payload)
    requires ActionForProduct(p)
    ensures ContractOutcome(DropGoalResponse(AsOperation(p))) == AsOperation(p)
  {
    hide LocalOperation, Strip, Lower;
    RoutesAreDistinct(Action);
    OutcomesArePlain(WorkspaceOperation);
    OutcomesDiffer(WorkspaceOperation);
  }

  lemma ActionRouteParses(p: Payload)
    requires ActionForProduct(p)
    ensures ParseRoute(p.route) == Ok(Action)
  {
    hide Strip, Lower;
    RoutesParse(Action);
    RoutesAreDistinct(Action);
  }

  lemma UnrepairedProductFails(p: Payload, input: string, forced: Option<Route>, wantIntake: bool)
    requires ActionForProduct(p)
    ensures ParseRepaired(p, input, forced, wantIntake).Err?
  {
    hide ParseAuthority, ParseTitle, ParseFlag, ParseUncertainty, ParseOptionalIntake, ParseDecisionDemand, TextOf,
      TokenOf, ParseOutcome, CheckRoute, RouteName, OutcomeName, ParseRoute, ParseEffects;
    ActionRouteParses(p);
    ProductTokens(p);
    if TokenOf(p.outcome) == OutcomeName(RunnableProduct) {
      OutcomeTokensParse(p.outcome, RunnableProduct);
    } else {
      OutcomeTokensParse(p.outcome, DurableProject);
    }
  }

  lemma UnreadableEffectsFail(p: Payload, input: string, forced: Option<Route>, wantIntake: bool)
    requires ParseEffects(p.effects).Err?
    ensures ParseRepaired(p, input, forced, wantIntake).Err?
  {
    hide ParseTitle, ParseFlag, ParseUncertainty, ParseOptionalIntake, ParseDecisionDemand, TextOf,
      ParseOutcome, CheckRoute, ParseRoute, ParseEffects, Authorize;
  }

  /**
   * An action that asks for a product is accepted exactly if its effects stay local and it would be accepted as a
   * workspace operation, and then it is that decision: one that neither writes nor reaches outside, and uses tools.
   */
  lemma ProductActionsParseIff(p: Payload, input: string, forced: Option<Route>, wantIntake: bool)
    requires ActionForProduct(p)
    ensures var answer := Parse(p, input, forced, wantIntake);
            && (StaysLocal(p) ==> answer == Parse(AsOperation(p), input, forced, wantIntake))
            && (!StaysLocal(p) ==> answer.Err?)
            && (answer.Ok? ==>
                  && answer.value.route == Action && answer.value.outcome == WorkspaceOperation
                  && WRITE !in answer.value.effects && EXTERNAL !in answer.value.effects
                  && answer.value.effects != [] && answer.value.needsTools)
  {
    hide ParseRepaired, LocalOperation, ContractOutcome, DropGoalResponse, StaysLocal, ActionForProduct;
    ProductTokens(p);
    OperationNeedsNoRepair(p);
    UnrepairedProductFails(p, input, forced, wantIntake);
    if ParseEffects(p.effects).Ok? {
      RepairSeesEffects(p);
    } else {
      UnreadableEffectsFail(AsOperation(p), input, forced, wantIntake);
      assert !StaysLocal(p) by { hide *; LocalIsReadable(p); }
    }
    if Parse(p, input, forced, wantIntake).Ok? {
      LocalDecision(p, input, forced, wantIntake);
    }
  }

  lemma LocalIsReadable(p: Payload)
    ensures StaysLocal(p) ==> ParseEffects(p.effects).Ok?
  {
  }

  lemma LocalDecision(p: Payload, input: string, forced: Option<Route>, wantIntake: bool)
    requires ActionForProduct(p) && StaysLocal(p) && ParseRepaired(AsOperation(p), input, forced, wantIntake).Ok?
    ensures var d := ParseRepaired(AsOperation(p), input, forced, wantIntake).value;
            && d.route == Action && d.outcome == WorkspaceOperation
            && WRITE !in d.effects && EXTERNAL !in d.effects && d.effects != [] && d.needsTools
  {
    hide ParseRepaired, ParseTitle, ParseUncertainty, ParseOptionalIntake, ParseDecisionDemand, TextOf,
      ParseOutcome, ParseRoute, ParseEffects, Authorize, Authorized, Within, ActionForProduct, ParseFlag;
    var q := AsOperation(p);
    var d := ParseRepaired(q, input, forced, wantIntake).value;
    ParsedInStages(q, input, forced, wantIntake, d);
    ActionRouteParses(p);
    OutcomesParse(WorkspaceOperation, Action);
    var effects := ParseEffects(p.effects).value;
    ParsedEffectsAreDistinct(p.effects);
    GrantedEffectsAreAuthorized(effects, if p.spans.SpansObject? then p.spans.spans else map[], input);
    assert forall e :: e in d.effects ==> e in effects by { WithinMeans(d.effects, effects); }
  }

  lemma WithinMeans(some: seq<Effect>, effects: seq<Effect>)
    requires Within(some, effects)
    ensures forall e :: e in some ==> e in effects
  {
  }

  /** A goal is read as if it had no response of its own. */
  lemma GoalsIgnoreResponses(p: Payload, input: string, forced: Option<Route>, wantIntake: bool)
    requires p.route.Some? && Lower(Strip(p.route.value)) == "goal"
    ensures Parse(p, input, forced, wantIntake) == Parse(p.(directResponse := None), input, forced, wantIntake)
  {
    hide Strip, Lower, LocalOperation, ParseRoute, ParseOutcome, ParseTitle, ParseAuthority, ParseFlag, ParseUncertainty,
      ParseOptionalIntake, ParseDecisionDemand, RouteName, OutcomeName;
    RoutesAreDistinct(Goal);
    EmptyStrip();
    assert RouteName(Goal) == "goal" by { GoalName(); }
    assert TextOf(Some("")) == "" && TextOf(None) == "";
  }

  lemma GoalName()
    ensures RouteName(Goal) == "goal" && RouteName(Action) != "goal"
  {
  }
}
