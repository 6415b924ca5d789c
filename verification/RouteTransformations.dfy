/**
 * Promotion of actions, contraction of operational goals, the tool categories a decision allows, and the
 * loop-by-loop form of the parser.
 */
module RouteTransformations {

  import opened Text
  import opened TaskDemand
  import opened Routes
  import opened RouteRoundTrip

  // ---------------------------------------------------------------- promotion and contraction

  function Promote(d: Decision): Decision {
    if d.route != Action then d
    else d.(route := Goal, outcome := DurableProject, directResponse := "", intake := None)
  }

  predicate Reaches(effects: seq<Effect>) { WRITE in effects || EXTERNAL in effects }

  function Contract(d: Decision): Decision {
    if d.route != Goal || d.effects == [] || Reaches(d.effects) then d
    else d.(route := Action, outcome := WorkspaceOperation, needsTools := true, directResponse := "", intake := None)
  }

  lemma EmptyIsStripped()
    ensures Strip("") == ""
  {
  }

  /** A promoted action is a decision the parser would accept, with the same effects and the same authority. */
  lemma PromotionKeepsSoundness(d: Decision, input: string)
    requires Sound(d, input)
    ensures Sound(Promote(d), input) && (Settled(d) ==> Settled(Promote(d)))
    ensures Promote(d).effects == d.effects && Promote(d).spans == d.spans && Promote(d).route != Action
  {
    hide Authorized, Concise, SoundDemand, SoundIntake, Strip, IsClean;
    EmptyIsStripped();
  }

  lemma ContractionKeepsSoundness(d: Decision, input: string)
    requires Sound(d, input)
    ensures Sound(Contract(d), input) && (Settled(d) ==> Settled(Contract(d)))
    ensures Contract(d).effects == d.effects && Contract(d).spans == d.spans
    ensures Contract(d).route == Goal ==> d.effects == [] || Reaches(d.effects)
  {
    hide Authorized, Concise, SoundDemand, SoundIntake, Strip, IsClean;
    EmptyIsStripped();
  }

  /**
   * Contracting a promoted action gives the action back, without its response, exactly when it neither writes nor
   * reaches outside; otherwise the promotion stands.
   */
  lemma ContractionUndoesPromotion(d: Decision, input: string)
    requires Sound(d, input) && d.route == Action
    ensures Contract(Promote(d)) == d.(directResponse := "") <==> !Reaches(d.effects)
    ensures Reaches(d.effects) ==> Contract(Promote(d)) == Promote(d)
  {
    hide Authorized, Concise, SoundDemand, SoundIntake, Strip;
  }

  /** Promoting a contracted goal gives it back exactly when the contraction lost nothing. */
  lemma PromotionUndoesContraction(d: Decision, input: string)
    requires Sound(d, input) && Contract(d).route == Action && d.route == Goal
    ensures Promote(Contract(d)) == d <==> d.outcome == DurableProject && d.needsTools && d.intake.None?
  {
    hide Authorized, Concise, SoundDemand, SoundIntake, Strip;
  }

  /** Both transformations of an accepted decision survive printing and parsing. */
  lemma TransformedDecisionsRoundTrip(p: Payload, input: string, forced: Option<Route>, wantIntake: bool)
    requires Supplied(p) && Parse(p, input, forced, wantIntake).Ok?
    ensures var d := Parse(p, input, forced, wantIntake).value;
            && Parse(Print(Promote(d)), input, None, true) == Ok(Canonical(Promote(d)))
            && Parse(Print(Contract(d)), input, None, true) == Ok(Canonical(Contract(d)))
  {
    hide Parse, Sound, Settled, Canonical, Supplied, Promote, Contract, Print;
    ParsedDecisionsAreSound(p, input, forced, wantIntake);
    var d := Parse(p, input, forced, wantIntake).value;
    PromotionKeepsSoundness(d, input);
    ContractionKeepsSoundness(d, input);
    CanonicalIsSound(Promote(d), input);
    CanonicalIsSound(Contract(d), input);
    DecisionRoundTrip(Promote(d), input);
    DecisionRoundTrip(Contract(d), input);
  }

  // ---------------------------------------------------------------- tool categories

  datatype Category =
    | ReadTools | WriteTools | CommandTools | ProcessTools | InstallTools | PreviewTools | OpenTools | MediaTools
    | OutputTools | ExternalTools

  function Granted(e: Effect): set<Category> {
    match e
    case READ => {}
    case WRITE => {WriteTools}
    case RUN => {CommandTools, ProcessTools, InstallTools}
    case INSTALL => {InstallTools}
    case PREVIEW => {PreviewTools, OpenTools, ProcessTools, MediaTools}
    case EXTERNAL => {}
  }

  function Expected(e: Effect): set<Category> {
    match e
    case READ => {ReadTools}
    case WRITE => {WriteTools}
    case RUN => {CommandTools, ProcessTools}
    case INSTALL => {InstallTools}
    case PREVIEW => {PreviewTools, OpenTools, MediaTools}
    case EXTERNAL => {ExternalTools}
  }

  function GrantedBy(effects: seq<Effect>): set<Category> {
    if effects == [] then {} else GrantedBy(effects[..|effects| - 1]) + Granted(effects[|effects| - 1])
  }

  function Allowed(d: Decision): set<Category> { {ReadTools, OutputTools} + GrantedBy(d.effects) }

  function Missing(effects: seq<Effect>, used: set<Category>): seq<Effect> {
    if effects == [] then []
    else
      var e := effects[|effects| - 1];
      Missing(effects[..|effects| - 1], used) + if used * Expected(e) == {} then [e] else []
  }

  lemma {:induction false} GrantedElements(effects: seq<Effect>, c: Category)
    ensures c in GrantedBy(effects) <==> exists e :: e in effects && c in Granted(e)
  {
    if effects != [] {
      var front, last := effects[..|effects| - 1], effects[|effects| - 1];
      GrantedElements(front, c);
      assert effects == front + [last];
      if c in Granted(last) {
        assert last in effects;
      }
      if c in GrantedBy(front) {
        var e :| e in front && c in Granted(e);
        assert e in effects;
      }
    }
  }

  lemma {:induction false} MissingElements(effects: seq<Effect>, used: set<Category>)
    ensures forall e :: e in Missing(effects, used) <==> e in effects && used * Expected(e) == {}
  {
    if effects != [] {
      var front, last := effects[..|effects| - 1], effects[|effects| - 1];
      MissingElements(front, used);
      assert effects == front + [last];
    }
  }

  /** Using every allowed category satisfies every requested effect except an external one. */
  lemma AllowedToolsSatisfyAllButExternal(d: Decision)
    ensures forall e :: e in Missing(d.effects, Allowed(d)) <==> e == EXTERNAL && e in d.effects
    ensures Missing(d.effects, Allowed(d)) == [] <==> EXTERNAL !in d.effects
  {
    hide GrantedBy, Missing;
    var used := Allowed(d);
    MissingElements(d.effects, used);
    forall e | e in d.effects
      ensures used * Expected(e) == {} <==> e == EXTERNAL
    {
      OneExpected(d, e);
    }
    if EXTERNAL in d.effects {
      assert EXTERNAL in Missing(d.effects, used);
    } else {
      assert forall e :: e !in Missing(d.effects, used);
      SomeElement(Missing(d.effects, used));
    }
  }

  lemma SomeElement(effects: seq<Effect>)
    ensures effects != [] ==> exists e :: e in effects
  {
    if effects != [] {
      assert effects[0] in effects;
    }
  }

  lemma OneExpected(d: Decision, e: Effect)
    requires e in d.effects
    ensures Allowed(d) * Expected(e) == {} <==> e == EXTERNAL
  {
    hide GrantedBy;
    if e == EXTERNAL {
      NothingExternal(d);
    } else {
      var c := match e
        case READ => ReadTools
        case WRITE => WriteTools
        case RUN => CommandTools
        case INSTALL => InstallTools
        case _ => PreviewTools;
      GrantedElements(d.effects, c);
      assert c in Allowed(d) * Expected(e);
    }
  }

  /** No decision allows an external tool. */
  lemma NothingExternal(d: Decision)
    ensures ExternalTools !in Allowed(d)
  {
    hide GrantedBy;
    GrantedElements(d.effects, ExternalTools);
  }

  /** Using more categories never leaves more effects missing. */
  lemma MoreToolsMissLess(effects: seq<Effect>, used: set<Category>, more: set<Category>)
    requires used <= more
    ensures forall e :: e in Missing(effects, more) ==> e in Missing(effects, used)
  {
    hide Missing;
    MissingElements(effects, used);
    MissingElements(effects, more);
    forall e | e in Missing(effects, more)
      ensures e in Missing(effects, used)
    {
      assert used * Expected(e) <= more * Expected(e);
    }
  }

  /**
   * Whatever a payload claims: a tool category beyond reading and publishing is allowed only if some words of the
   * user's own input authorize an effect that grants it. A chat allows none.
   */
  lemma ToolsTraceToUserWords(p: Payload, input: string, forced: Option<Route>, wantIntake: bool, c: Category)
    requires Parse(p, input, forced, wantIntake).Ok?
    requires c in Allowed(Parse(p, input, forced, wantIntake).value) && c != ReadTools && c != OutputTools
    ensures var d := Parse(p, input, forced, wantIntake).value;
            && d.route != Chat
            && exists e, i :: e in d.effects && c in Granted(e) && Name(e) in d.spans
                              && 0 <= i < |d.spans[Name(e)]| && d.spans[Name(e)][i] != ""
                              && Contains(input, d.spans[Name(e)][i])
  {
    hide Parse, GrantedBy, Name, Concise, Strip, SoundDemand, SoundIntake, Contains, Settled, Supplied;
    ParsedDecisionsAreSound(p, input, forced, wantIntake);
    var d := Parse(p, input, forced, wantIntake).value;
    GrantedElements(d.effects, c);
    var e :| e in d.effects && c in Granted(e);
    assert e != READ && SpansAuthorize(e, d.spans[Name(e)], input);
    assert d.spans[Name(e)][0] != "";
  }

  // ---------------------------------------------------------------- the transport repairs

  lemma OutcomeTokensParse(raw: Option<string>, o: Outcome)
    requires TokenOf(raw) == OutcomeName(o)
    ensures forall r :: ParseOutcome(raw, r) == if OutcomeAllows(o, r) then Ok(o) else Err(RouteOutcomeMismatch)
  {
    hide OutcomeAllows, OutcomeName, NamedOutcome, TokenOf;
    OutcomesAreDistinct(o);
  }

  lemma RouteTokensParse(raw: Option<string>, r: Route)
    requires ParseRoute(raw).Ok? && TokenOf(raw) == RouteName(r)
    ensures ParseRoute(raw) == Ok(r)
  {
    hide TokenOf, RouteName;
    RoutesAreDistinct(Chat);
    RoutesAreDistinct(Action);
    RoutesAreDistinct(Goal);
  }

  /** The repairs only rescue payloads: one that parses without them parses the same with them. */
  lemma RepairsOnlyRescue(p: Payload, input: string, forced: Option<Route>, wantIntake: bool)
    requires ParseRepaired(p, input, forced, wantIntake).Ok?
    ensures Parse(p, input, forced, wantIntake) == ParseRepaired(p, input, forced, wantIntake)
  {
    hide ParseRepaired, ParseOutcome, ParseTitle, ParseAuthority, ParseFlag, ParseUncertainty, ParseOptionalIntake,
      ParseDecisionDemand, LocalOperation, TokenOf, RouteName, OutcomeName, TextOf, ParseRoute;
    var d := ParseRepaired(p, input, forced, wantIntake).value;
    ParsedInStages(p, input, forced, wantIntake, d);
    if TokenOf(p.route) == RouteName(Goal) {
      RouteTokensParse(p.route, Goal);
      assert d.directResponse == "";
    }
    if TokenOf(p.route) == RouteName(Action) {
      RouteTokensParse(p.route, Action);
      if TokenOf(p.outcome) == OutcomeName(RunnableProduct) {
        OutcomeTokensParse(p.outcome, RunnableProduct);
      }
      if TokenOf(p.outcome) == OutcomeName(DurableProject) {
        OutcomeTokensParse(p.outcome, DurableProject);
      }
    }
  }

  /** The repairs grant nothing: the effects and spans are the ones the payload's own fields authorize. */
  lemma RepairsGrantNothing(p: Payload, input: string, forced: Option<Route>, wantIntake: bool)
    requires Parse(p, input, forced, wantIntake).Ok?
    ensures var d := Parse(p, input, forced, wantIntake).value;
            ParseAuthority(p.effects, p.spans, input) == Ok(Authority(d.effects, d.spans))
  {
    hide ParseRepaired, ContractOutcome, DropGoalResponse, ParseRoute, ParseOutcome, ParseTitle, ParseAuthority,
      ParseFlag, ParseUncertainty, ParseOptionalIntake, ParseDecisionDemand, TextOf, CheckRoute;
    RepairsKeepTheRest(p);
    ParsedInStages(ContractOutcome(DropGoalResponse(p)), input, forced, wantIntake,
                   Parse(p, input, forced, wantIntake).value);
  }

  // ---------------------------------------------------------------- where defaults do not settle

  lemma {:induction false} RunOfLetters(n: nat)
    ensures |Repeat('a', n)| == n && (n > 0 ==> IsWord(Repeat('a', n)))
  {
    assert !IsSpace('a');
  }

  /** A title cut from the interpretation at 80 characters may end in a blank, which parsing again removes. */
  lemma CutTitleDrifts()
    ensures var word := Repeat('a', 79);
            && ParseTitle(None, word + " b") == Ok(word + " ")
            && ParseTitle(Some(word + " "), word + " b") == Ok(word)
  {
    hide Repeat, WordEnd;
    RunOfLetters(79);
    var word := Repeat('a', 79);
    WordsOfJoin(word, " b");
    OneLetterTail();
    assert Join([word, "b"], " ") == word + " " + "b" by { assert [word, "b"][1..] == ["b"]; }
    assert (word + " " + "b")[..80] == word + " ";
    WordsOfJoin(word, " ");
    BlankHasNoWords();
    assert Join([word], " ") == word;
    assert word + "" == word;
    WordsOfJoin(word, "");
  }

  lemma OneLetterTail()
    ensures Words(" b") == ["b"] && Words("") == []
  {
    assert " b"[1..] == "b";
    WordsOfJoin("b", "");
    assert "b" + "" == "b";
  }

  lemma BlankHasNoWords()
    ensures Words(" ") == []
  {
    assert " "[1..] == "";
  }

  /** A blank legacy coordination leaves an empty summary, which parsing again replaces by the default text. */
  lemma BlankCoordinationDrifts(p: IntakePayload)
    requires p.coordinationSummary.None? && p.coordination == Some(" ")
    ensures CoordinationSummary(p) == ""
    ensures forall i :: ParseIntake(p) == Ok(i) ==> ParseIntake(PrintIntake(i)) != Ok(i)
  {
    hide ParseCount, ParseFlag, ParseStrings, IntakeDemand, Required, ParseLists, UsableQuestions, PrintIntake,
      SoundIntake, Strip, CoordinationSummary;
    BlankSummary(p);
    forall i | ParseIntake(p) == Ok(i)
      ensures ParseIntake(PrintIntake(i)) != Ok(i)
    {
      IntakeRoundTrip(i);
    }
  }

  lemma BlankSummary(p: IntakePayload)
    requires p.coordinationSummary.None? && p.coordination == Some(" ")
    ensures CoordinationSummary(p) == ""
  {
    assert TrimLeft(" ", IsSpace) == "" by { assert " "[1..] == ""; }
    assert Strip(" ") == "";
  }

  // ---------------------------------------------------------------- the parser, loop by loop

  method SelectNames(switches: seq<(string, Switch)>) returns (r: Result<seq<string>>)
    ensures r == EnabledNames(switches)
  {
    var selected: seq<string> := [];
    for i := 0 to |switches|
      invariant EnabledNames(switches[..i]) == Ok(selected)
    {
      assert switches[..i + 1][..i] == switches[..i];
      var (name, switch) := switches[i];
      if switch.BadSwitch? {
        FailedPrefix(switches, i + 1);
        return Err(BadEffects);
      }
      if (switch.On? && switch.on) || (switch.Listed? && switch.spans > 0) {
        selected := selected + [name];
      }
    }
    assert switches[..|switches|] == switches;
    r := Ok(selected);
  }

  lemma {:induction false} FailedPrefix(switches: seq<(string, Switch)>, k: nat)
    requires k <= |switches| && EnabledNames(switches[..k]) == Err(BadEffects)
    ensures EnabledNames(switches) == Err(BadEffects)
  {
    if k == |switches| {
      assert switches[..k] == switches;
    } else {
      assert switches[..|switches| - 1][..k] == switches[..k];
      FailedPrefix(switches[..|switches| - 1], k);
    }
  }

  method AuthorizeEffects(effects: seq<Effect>, raw: map<string, RawStrings>, input: string)
    returns (r: Result<Authority>)
    ensures r == Authorize(effects, raw, input)
  {
    hide SpansFor, Verbatim, Name;
    var spans: map<string, seq<string>> := map[];
    var authorized: seq<Effect> := [];
    for i := 0 to |effects|
      invariant Authorize(effects[..i], raw, input) == Ok(Authority(authorized, spans))
    {
      assert effects[..i + 1][..i] == effects[..i];
      var normalized := SpansFor(raw, effects[i]);
      var problem := if normalized.Err? then Some(normalized.problem)
                     else if effects[i] == EXTERNAL && normalized.value == [] then None
                     else if effects[i] != READ && normalized.value == [] then Some(NoAuthority)
                     else if !Verbatim(normalized.value, input) then Some(SpanNotVerbatim)
                     else None;
      if problem.Some? {
        DeniedPrefix(effects, i + 1, raw, input, problem.value);
        return Err(problem.value);
      }
      if effects[i] != EXTERNAL || normalized.value != [] {
        spans := spans[Name(effects[i]) := normalized.value];
        authorized := authorized + [effects[i]];
      }
    }
    assert effects[..|effects|] == effects;
    r := Ok(Authority(authorized, spans));
  }

  lemma {:induction false} DeniedPrefix(effects: seq<Effect>, k: nat, raw: map<string, RawStrings>, input: string,
                                        problem: Problem)
    requires k <= |effects| && Authorize(effects[..k], raw, input) == Err(problem)
    ensures Authorize(effects, raw, input) == Err(problem)
    decreases |effects|
  {
    hide AuthorizeOne;
    if k == |effects| {
      assert effects[..k] == effects;
    } else {
      assert effects[..|effects| - 1][..k] == effects[..k];
      DeniedPrefix(effects[..|effects| - 1], k, raw, input, problem);
    }
  }

  method AllowedCategories(d: Decision) returns (categories: set<Category>)
    ensures categories == Allowed(d)
  {
    categories := {ReadTools, OutputTools};
    for i := 0 to |d.effects|
      invariant categories == {ReadTools, OutputTools} + GrantedBy(d.effects[..i])
    {
      assert d.effects[..i + 1][..i] == d.effects[..i];
      categories := categories + Granted(d.effects[i]);
    }
    assert d.effects[..|d.effects|] == d.effects;
  }

  lemma ParsedMeaning(p: Payload, input: string, forced: Option<Route>, wantIntake: bool)
    requires Parse(p, input, forced, wantIntake).Ok?
    ensures var d := Parse(p, input, forced, wantIntake).value;
            && Sound(d, input) && (forced.Some? ==> d.route == forced.value)
            && (Supplied(p) ==> Parse(Print(d), input, None, true) == Ok(Canonical(d)))
  {
    hide Parse, Sound, Settled, Supplied, Print, Canonical;
    ParsedDecisionsAreSound(p, input, forced, wantIntake);
    if Supplied(p) {
      SuppliedDecisionsRoundTrip(p, input, forced, wantIntake);
    }
  }

  method ReadAuthority(effects: RawEffects, spans: RawSpans, input: string) returns (r: Result<Authority>)
    ensures r == ParseAuthority(effects, spans, input)
  {
    hide ParseNames, Authorize, EnabledNames, Dedup;
    var names: seq<string>;
    match effects {
      case EffectsMissing => names := [];
      case Switches(switches) =>
        var selected := SelectNames(switches);
        names :- selected;
      case Names(given) => names := given;
      case OneName(name) => names := [name];
      case EffectsOther => return Err(BadEffects);
    }
    var parsed :- ParseNames(names);
    if spans.SpansOther? {
      return Err(BadSpans);
    }
    r := AuthorizeEffects(Dedup(parsed), if spans.SpansObject? then spans.spans else map[], input);
  }

  method FromMapping(value: Payload, originalInput: string, forced: Option<Route>, wantIntake: bool)
    returns (r: Result<Decision>)
    ensures r == Parse(value, originalInput, forced, wantIntake)
    ensures r.Ok? ==> Sound(r.value, originalInput) && (forced.Some? ==> r.value.route == forced.value)
    ensures r.Ok? && Supplied(value) ==> Parse(Print(r.value), originalInput, None, true) == Ok(Canonical(r.value))
  {
    if Parse(value, originalInput, forced, wantIntake).Ok? {
      ParsedMeaning(value, originalInput, forced, wantIntake);
    }
    hide ParseRoute, ParseOutcome, TextOf, ParseTitle, ParseAuthority, ParseFlag, ParseUncertainty, ParseIntake,
      ParseDecisionDemand, CheckRoute, ContractOutcome, DropGoalResponse;
    var source := ContractOutcome(DropGoalResponse(value));
    var route :- ParseRoute(source.route);
    if forced.Some? && forced.value != route {
      return Err(ForcedRoute);
    }
    var outcome :- ParseOutcome(source.outcome, route);
    var interpretation := TextOf(source.interpretation);
    if interpretation == "" {
      return Err(NoInterpretation);
    }
    var title :- ParseTitle(source.title, interpretation);
    var granted := ReadAuthority(source.effects, source.spans, originalInput);
    var authority :- granted;
    var needsTools :- ParseFlag(source.needsTools, false);
    var uncertainty :- ParseUncertainty(source.uncertainty);
    var clarification := TextOf(source.clarification);
    if uncertainty == ClarificationNeeded && clarification == "" {
      return Err(NoClarification);
    }
    var intake: Option<Intake> := None;
    if wantIntake && source.intake.Some? {
      var read :- ParseIntake(source.intake.value);
      intake := Some(read);
    }
    var demand :- ParseDecisionDemand(source.demand, intake);
    r := CheckRoute(Decision(route, outcome, title, interpretation, authority.effects, authority.spans, needsTools,
                             TextOf(source.directResponse), uncertainty, clarification, demand, intake));
  }
}
