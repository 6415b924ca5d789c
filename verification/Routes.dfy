/**
 * Semantic route decisions: the normalising parser, the printer, and the transformations between routes.
 */
module Routes {

  import opened Text
  import opened TaskDemand

  datatype Route = Chat | Action | Goal

  datatype Outcome = Conversation | Explanation | WorkspaceOperation | RunnableProduct | DurableProject

  datatype Effect = READ | WRITE | RUN | INSTALL | PREVIEW | EXTERNAL

  datatype Uncertainty = Clear | ClarificationNeeded

  datatype Question = Question(question: string, body: string)

  datatype Intake = Intake(
    objective: string, deliverables: seq<string>, constraints: seq<string>, exclusions: seq<string>,
    expectations: seq<string>, assumptions: seq<string>, risks: seq<string>, componentCount: int, parallel: bool,
    coordination: string, uncertainty: string, reasons: seq<string>, demand: Demand, questions: seq<Question>)

  datatype Decision = Decision(
    route: Route, outcome: Outcome, title: string, interpretation: string, effects: seq<Effect>,
    spans: map<string, seq<string>>, needsTools: bool, directResponse: string, uncertainty: Uncertainty,
    clarification: string, demand: Demand, intake: Option<Intake>)

  // ---------------------------------------------------------------- the payloads

  datatype Switch = On(on: bool) | Listed(spans: nat) | BadSwitch

  datatype RawEffects =
    | EffectsMissing
    | Switches(switches: seq<(string, Switch)>)
    | Names(names: seq<string>)
    | OneName(name: string)
    | EffectsOther

  datatype RawSpans = SpansMissing | SpansObject(spans: map<string, RawStrings>) | SpansOther

  datatype RawQuestions = RawQuestions(questions: seq<Question>, wellFormed: bool)

  datatype IntakePayload = IntakePayload(
    objective: Option<string>, deliverables: RawStrings, constraints: RawStrings, exclusions: RawStrings,
    expectations: RawStrings, assumptions: RawStrings, risks: RawStrings, componentCount: RawCount,
    breadth: Option<string>, parallel: RawFlag, coordination: Option<string>, coordinationSummary: Option<string>,
    uncertainty: Option<string>, reasons: RawStrings, recommendation: Option<string>, demand: Option<DemandPayload>,
    questions: RawQuestions)

  datatype Payload = Payload(
    route: Option<string>, outcome: Option<string>, title: Option<string>, interpretation: Option<string>,
    effects: RawEffects, spans: RawSpans, needsTools: RawFlag, directResponse: Option<string>,
    uncertainty: Option<string>, clarification: Option<string>, demand: Option<DemandPayload>,
    intake: Option<IntakePayload>)

  // ---------------------------------------------------------------- names

  function RouteName(r: Route): string {
    match r
    case Chat => "chat"
    case Action => "action"
    case Goal => "goal"
  }

  function OutcomeName(o: Outcome): string {
    match o
    case Conversation => "conversation"
    case Explanation => "explanation"
    case WorkspaceOperation => "workspace_operation"
    case RunnableProduct => "runnable_product"
    case DurableProject => "durable_project"
  }

  function Name(e: Effect): string {
    match e
    case READ => "read"
    case WRITE => "write"
    case RUN => "run"
    case INSTALL => "install"
    case PREVIEW => "preview"
    case EXTERNAL => "external_side_effect"
  }

  function UncertaintyName(u: Uncertainty): string { if u == Clear then "clear" else "clarification_needed" }

  function Token(raw: string): string { Lower(Strip(raw)) }

  function TokenOf(raw: Option<string>): string { Lower(TextOf(raw)) }

  function ParseRoute(raw: Option<string>): Result<Route> {
    var t := TokenOf(raw);
    if t == RouteName(Chat) then Ok(Chat)
    else if t == RouteName(Action) then Ok(Action)
    else if t == RouteName(Goal) then Ok(Goal)
    else Err(BadRoute)
  }

  predicate OutcomeAllows(o: Outcome, r: Route) {
    match o
    case Conversation => r == Chat
    case Explanation => r == Chat
    case WorkspaceOperation => r == Action || r == Goal
    case RunnableProduct => r == Goal
    case DurableProject => r == Goal
  }

  function DefaultOutcome(r: Route): Outcome {
    match r
    case Chat => Conversation
    case Action => WorkspaceOperation
    case Goal => DurableProject
  }

  function NamedOutcome(t: string): Result<Outcome> {
    if t == OutcomeName(Conversation) then Ok(Conversation)
    else if t == OutcomeName(Explanation) then Ok(Explanation)
    else if t == OutcomeName(WorkspaceOperation) then Ok(WorkspaceOperation)
    else if t == OutcomeName(RunnableProduct) then Ok(RunnableProduct)
    else if t == OutcomeName(DurableProject) then Ok(DurableProject)
    else Err(BadOutcome)
  }

  function ParseOutcome(raw: Option<string>, r: Route): Result<Outcome> {
    var t := TokenOf(raw);
    var o :- if t == "" then Ok(DefaultOutcome(r)) else NamedOutcome(t);
    if OutcomeAllows(o, r) then Ok(o) else Err(RouteOutcomeMismatch)
  }

  /** The effect a token names, directly or through one of the tool names weak models emit instead. */
  function NamedEffect(t: string): Option<Effect> {
    if t == Name(READ) then Some(READ)
    else if t == Name(WRITE) then Some(WRITE)
    else if t == Name(RUN) then Some(RUN)
    else if t == Name(INSTALL) then Some(INSTALL)
    else if t == Name(PREVIEW) then Some(PREVIEW)
    else if t == Name(EXTERNAL) then Some(EXTERNAL)
    else AliasedEffect(t)
  }

  function AliasedEffect(t: string): Option<Effect> {
    if t in ["read_workspace", "read_file", "list_files", "grep", "inspect_images"] then Some(READ)
    else if t in ["write_workspace", "write_file", "edit_file", "apply_patch", "materialize_artifact"] then Some(WRITE)
    else if t in ["run_command", "execute_shell", "run_shell", "shell", "run_bash", "start_process"] then Some(RUN)
    else if t in ["install_dependency", "install_dependencies"] then Some(INSTALL)
    else if t in ["browser_open", "browser_inspect", "browser_act", "browser_screenshot", "browser_close",
                  "publish_output", "preview_or_open", "open", "preview_html", "inspect_preview"] then Some(PREVIEW)
    else None
  }

  /** The spellings of "no effect". */
  predicate NamesNothing(t: string) {
    t in ["", "none", "no_effect", "no effects", "no requested effects"]
  }

  function Respaced(t: string): string {
    seq(|t|, i requires 0 <= i < |t| => if t[i] == '_' || t[i] == '-' then ' ' else t[i])
  }

  function Underscored(t: string): string {
    seq(|t|, i requires 0 <= i < |t| => if t[i] == ' ' then '_' else t[i])
  }

  function ParseUncertainty(raw: Option<string>): Result<Uncertainty> {
    var text := if raw.None? || raw.value == "" then "clear" else raw.value;
    var t := JoinWords(Respaced(Token(text)));
    if t in ["none", "no", "low", "certain", "resolved", "unambiguous"] then Ok(Clear)
    else if t in ["clarification needed", "needs clarification", "unclear", "ambiguous", "high"]
    then Ok(ClarificationNeeded)
    else if Underscored(t) == UncertaintyName(Clear) then Ok(Clear)
    else if Underscored(t) == UncertaintyName(ClarificationNeeded) then Ok(ClarificationNeeded)
    else Err(BadUncertainty)
  }

  // ---------------------------------------------------------------- words and titles

  function WordEnd(s: string): (n: nat)
    ensures n <= |s|
    ensures forall i :: 0 <= i < n ==> !IsSpace(s[i])
    ensures n < |s| ==> IsSpace(s[n])
  {
    if s == "" || IsSpace(s[0]) then 0 else 1 + WordEnd(s[1..])
  }

  /** str.split() */
  function Words(s: string): seq<string> {
    if s == "" then []
    else if IsSpace(s[0]) then Words(s[1..])
    else
      var n := WordEnd(s);
      [s[..n]] + Words(s[n..])
  }

  function JoinWords(s: string): string { Join(Words(s), " ") }

  predicate IsWord(w: string) { w != "" && forall i | 0 <= i < |w| :: !IsSpace(w[i]) }

  lemma {:induction false} WordsAreWords(s: string)
    ensures forall i :: 0 <= i < |Words(s)| ==> IsWord(Words(s)[i])
  {
    if s != "" {
      if IsSpace(s[0]) {
        WordsAreWords(s[1..]);
      } else {
        WordsAreWords(s[WordEnd(s)..]);
      }
    }
  }

  lemma {:induction false} WordEndOf(w: string, rest: string)
    requires IsWord(w) && (rest == "" || IsSpace(rest[0]))
    ensures WordEnd(w + rest) == |w|
  {
    if |w| > 1 {
      WordEndOf(w[1..], rest);
      assert (w + rest)[1..] == w[1..] + rest;
    } else {
      assert (w + rest)[1..] == rest;
    }
  }

  lemma WordsOfJoin(w: string, rest: string)
    requires IsWord(w) && (rest == "" || IsSpace(rest[0]))
    ensures Words(w + rest) == [w] + Words(rest)
  {
    WordEndOf(w, rest);
    assert (w + rest)[..|w|] == w && (w + rest)[|w|..] == rest;
  }

  /** Splitting the words joined by single blanks gives the words back. */
  lemma {:induction false} SplitOfJoin(ws: seq<string>)
    requires forall i :: 0 <= i < |ws| ==> IsWord(ws[i])
    ensures Words(Join(ws, " ")) == ws
  {
    if |ws| == 1 {
      assert ws[0] + "" == ws[0];
      WordsOfJoin(ws[0], "");
    } else if |ws| > 1 {
      SplitOfJoin(ws[1..]);
      var rest := " " + Join(ws[1..], " ");
      assert Join(ws, " ") == ws[0] + rest;
      WordsOfJoin(ws[0], rest);
      assert rest[1..] == Join(ws[1..], " ");
      assert ws == [ws[0]] + ws[1..];
    }
  }

  lemma JoinWordsTwice(s: string)
    ensures JoinWords(JoinWords(s)) == JoinWords(s)
  {
    WordsAreWords(s);
    SplitOfJoin(Words(s));
  }

  predicate Concise(title: string) { |title| <= 80 && |Words(title)| <= 10 }

  function DefaultTitle(interpretation: string): string {
    var ws := Words(interpretation);
    var t := Join(if |ws| <= 10 then ws else ws[..10], " ");
    if |t| <= 80 then t else t[..80]
  }

  function ParseTitle(raw: Option<string>, interpretation: string): Result<string> {
    var authored := JoinWords(if raw.Some? then raw.value else "");
    var title := if authored == "" then DefaultTitle(interpretation) else authored;
    if Concise(title) then Ok(title) else Err(LongTitle)
  }

  // ---------------------------------------------------------------- effects and authority

  function EnabledNames(switches: seq<(string, Switch)>): Result<seq<string>> {
    if switches == [] then Ok([])
    else
      var front :- EnabledNames(switches[..|switches| - 1]);
      var (name, switch) := switches[|switches| - 1];
      match switch
      case On(on) => Ok(if on then front + [name] else front)
      case Listed(n) => Ok(if n > 0 then front + [name] else front)
      case BadSwitch => Err(BadEffects)
  }

  function EffectNames(raw: RawEffects): Result<seq<string>> {
    match raw
    case EffectsMissing => Ok([])
    case Switches(switches) => EnabledNames(switches)
    case Names(names) => Ok(names)
    case OneName(name) => Ok([name])
    case EffectsOther => Err(BadEffects)
  }

  function ParseNames(names: seq<string>): Result<seq<Effect>> {
    if names == [] then Ok([])
    else
      var front :- ParseNames(names[..|names| - 1]);
      var t := Token(names[|names| - 1]);
      if NamesNothing(t) then Ok(front)
      else if NamedEffect(t).Some? then Ok(front + [NamedEffect(t).value])
      else Err(UnknownEffect)
  }

  function ParseEffects(raw: RawEffects): Result<seq<Effect>> {
    var names :- EffectNames(raw);
    var effects :- ParseNames(names);
    Ok(Dedup(effects))
  }

  datatype Authority = Authority(effects: seq<Effect>, spans: map<string, seq<string>>)

  function NonEmpty(texts: seq<string>): seq<string> {
    if texts == [] then []
    else NonEmpty(texts[..|texts| - 1]) + if texts[|texts| - 1] == "" then [] else [texts[|texts| - 1]]
  }

  function SpansFor(raw: map<string, RawStrings>, e: Effect): Result<seq<string>> {
    if Name(e) !in raw then Ok([])
    else
      match raw[Name(e)]
      case Absent => Ok([])
      case One(text) => Ok(NonEmpty([text]))
      case Many(texts) => Ok(NonEmpty(texts))
      case _ => Err(BadSpans)
  }

  predicate Verbatim(spans: seq<string>, input: string) {
    forall i | 0 <= i < |spans| :: Contains(input, spans[i])
  }

  /** One effect: an external effect without a span is dropped, any other mutating effect must have one. */
  function AuthorizeOne(sofar: Authority, e: Effect, raw: map<string, RawStrings>, input: string): Result<Authority> {
    var spans :- SpansFor(raw, e);
    if e == EXTERNAL && spans == [] then Ok(sofar)
    else if e != READ && spans == [] then Err(NoAuthority)
    else if !Verbatim(spans, input) then Err(SpanNotVerbatim)
    else Ok(Authority(sofar.effects + [e], sofar.spans[Name(e) := spans]))
  }

  function Authorize(effects: seq<Effect>, raw: map<string, RawStrings>, input: string): Result<Authority> {
    if effects == [] then Ok(Authority([], map[]))
    else
      var front :- Authorize(effects[..|effects| - 1], raw, input);
      AuthorizeOne(front, effects[|effects| - 1], raw, input)
  }

  function ParseAuthority(effects: RawEffects, spans: RawSpans, input: string): Result<Authority> {
    var parsed :- ParseEffects(effects);
    match spans
    case SpansMissing => Authorize(parsed, map[], input)
    case SpansObject(raw) => Authorize(parsed, raw, input)
    case SpansOther => Err(BadSpans)
  }

  // ---------------------------------------------------------------- goal intake

  function UsableQuestions(questions: seq<Question>): seq<Question> {
    if questions == [] then []
    else
      var last := questions[|questions| - 1];
      UsableQuestions(questions[..|questions| - 1]) + if Strip(last.question) == "" then [] else [last]
  }

  /** Facts given once in the intake stand in for the ones missing from its nested demand. */
  function Rebound(d: DemandPayload, count: int, parallel: bool, reasons: seq<string>): DemandPayload {
    var counted := if d.componentCount.CountMissing? then d.(componentCount := CountNumber(count)) else d;
    var flagged := if d.parallel.FlagMissing? then counted.(parallel := Truth(parallel)) else counted;
    if d.rationale in [Absent, Many([]), One(""), Null] && reasons != []
    then flagged.(rationale := Many(reasons)) else flagged
  }

  function IntakeDemand(p: IntakePayload, count: int, parallel: bool, reasons: seq<string>): Result<Demand> {
    match p.demand
    case Some(d) => ParseDemand(Rebound(d, count, parallel, reasons))
    case None =>
      var fallback := if p.recommendation.Some? && p.recommendation.value != "" then p.recommendation.value
                      else "legacy model-authored intake";
      Ok(LegacyDemand(count, parallel, if reasons != [] then reasons else [fallback]))
  }

  function CoordinationSummary(p: IntakePayload): string {
    var summary := TextOf(p.coordinationSummary);
    if summary != "" then summary
    else if p.coordination.Some? && p.coordination.value != "" then Strip(p.coordination.value)
    else "single coordinated workflow"
  }

  function Required(raw: Option<string>): Result<string> {
    if TextOf(raw) == "" then Err(NoText) else Ok(TextOf(raw))
  }

  datatype Lists = Lists(
    deliverables: seq<string>, constraints: seq<string>, exclusions: seq<string>, expectations: seq<string>,
    assumptions: seq<string>, risks: seq<string>)

  function ParseLists(p: IntakePayload): Result<Lists> {
    var deliverables :- ParseStrings(p.deliverables);
    var constraints :- ParseStrings(p.constraints);
    var exclusions :- ParseStrings(p.exclusions);
    var expectations :- ParseStrings(p.expectations);
    var assumptions :- ParseStrings(p.assumptions);
    var risks :- ParseStrings(p.risks);
    Ok(Lists(deliverables, constraints, exclusions, expectations, assumptions, risks))
  }

  function ParseIntake(p: IntakePayload): Result<Intake> {
    if !p.questions.wellFormed || |p.questions.questions| > 3 then Err(BadQuestions)
    else
      var count :- ParseCount(p.componentCount, if TokenOf(p.breadth) == "multi_component" then 2 else 1);
      var parallel :- ParseFlag(p.parallel, TokenOf(p.coordination) in ["parallel", "recursive"]);
      var reasons :- ParseStrings(p.reasons);
      var demand :- IntakeDemand(p, count, parallel, reasons);
      var objective :- Required(p.objective);
      var lists :- ParseLists(p);
      var uncertainty :- Required(p.uncertainty);
      Ok(Intake(objective, lists.deliverables, lists.constraints, lists.exclusions, lists.expectations,
                lists.assumptions, lists.risks, count, parallel, CoordinationSummary(p), uncertainty,
                if reasons != [] then reasons else demand.rationale, demand, UsableQuestions(p.questions.questions)))
  }

  // ---------------------------------------------------------------- the parser

  /** The chat-only response is cleared from a goal payload. */
  function DropGoalResponse(p: Payload): Payload {
    if TokenOf(p.route) == RouteName(Goal) && TextOf(p.directResponse) != "" then p.(directResponse := Some("")) else p
  }

  /** The names an outcome repair looks at: bad switches count as off. */
  function LenientNames(switches: seq<(string, Switch)>): seq<string> {
    if switches == [] then []
    else
      var (name, switch) := switches[|switches| - 1];
      LenientNames(switches[..|switches| - 1])
      + if (switch.On? && switch.on) || (switch.Listed? && switch.spans > 0) then [name] else []
  }

  predicate LocalOperation(p: Payload) {
    var names := if p.effects.Switches? then Ok(LenientNames(p.effects.switches)) else EffectNames(p.effects);
    ParseFlag(p.needsTools, false) == Ok(true) && names.Ok? && ParseNames(names.value).Ok?
    && var effects := ParseNames(names.value).value;
       effects != [] && WRITE !in effects && EXTERNAL !in effects
  }

  /** An action that asks for a product but writes nothing is a workspace operation. */
  function ContractOutcome(p: Payload): Payload {
    if TokenOf(p.route) == RouteName(Action)
       && TokenOf(p.outcome) in [OutcomeName(RunnableProduct), OutcomeName(DurableProject)]
       && LocalOperation(p)
    then p.(outcome := Some(OutcomeName(WorkspaceOperation))) else p
  }

  function ParseDecisionDemand(raw: Option<DemandPayload>, intake: Option<Intake>): Result<Demand> {
    match raw
    case Some(d) => ParseDemand(d)
    case None =>
      Ok(if intake.Some? then LegacyDemand(intake.value.componentCount, intake.value.parallel, intake.value.reasons)
         else LegacyDemand(1, false, ["legacy model-authored semantic route"]))
  }

  function CheckRoute(d: Decision): Result<Decision> {
    match d.route
    case Chat =>
      if d.demand.levels.implementation > 1 then Err(ChatImplements)
      else if exists e | e in d.effects :: e != READ then Err(ChatEffects)
      else if d.effects != [] && !d.needsTools then Err(ChatReadsWithoutTools)
      else if !d.needsTools && d.directResponse == "" then Err(ChatSilent)
      else if d.intake.Some? then Err(UnexpectedIntake)
      else Ok(d)
    case Action =>
      if d.effects == [] then Err(ActionWithoutEffects)
      else if !d.needsTools then Err(ActionWithoutTools)
      else if d.intake.Some? then Err(UnexpectedIntake)
      else Ok(d)
    case Goal => if d.directResponse != "" then Err(GoalResponds) else Ok(d)
  }

  function ParseOptionalIntake(raw: Option<IntakePayload>, wanted: bool): Result<Option<Intake>> {
    if raw.None? || !wanted then Ok(None)
    else
      var intake :- ParseIntake(raw.value);
      Ok(Some(intake))
  }

  /** The parser proper, after the transport repairs. */
  function ParseRepaired(p: Payload, input: string, forced: Option<Route>, wantIntake: bool): Result<Decision> {
    var route :- ParseRoute(p.route);
    if forced.Some? && forced.value != route then Err(ForcedRoute)
    else
      var outcome :- ParseOutcome(p.outcome, route);
      var interpretation := TextOf(p.interpretation);
      if interpretation == "" then Err(NoInterpretation)
      else
        var title :- ParseTitle(p.title, interpretation);
        var authority :- ParseAuthority(p.effects, p.spans, input);
        var needsTools :- ParseFlag(p.needsTools, false);
        var uncertainty :- ParseUncertainty(p.uncertainty);
        if uncertainty == ClarificationNeeded && TextOf(p.clarification) == "" then Err(NoClarification)
        else
          var intake :- ParseOptionalIntake(p.intake, wantIntake);
          var demand :- ParseDecisionDemand(p.demand, intake);
          CheckRoute(Decision(route, outcome, title, interpretation, authority.effects, authority.spans, needsTools,
                              TextOf(p.directResponse), uncertainty, TextOf(p.clarification), demand, intake))
  }

  function Parse(p: Payload, input: string, forced: Option<Route>, wantIntake: bool): Result<Decision> {
    ParseRepaired(ContractOutcome(DropGoalResponse(p)), input, forced, wantIntake)
  }

  // ---------------------------------------------------------------- the printer

  function ALL(): seq<Effect> { [READ, WRITE, RUN, INSTALL, PREVIEW, EXTERNAL] }

  function PrintSwitches(all: seq<Effect>, effects: seq<Effect>): seq<(string, Switch)> {
    if all == [] then []
    else PrintSwitches(all[..|all| - 1], effects) + [(Name(all[|all| - 1]), On(all[|all| - 1] in effects))]
  }

  function PrintIntake(i: Intake): IntakePayload {
    IntakePayload(Some(i.objective), Many(i.deliverables), Many(i.constraints), Many(i.exclusions),
                  Many(i.expectations), Many(i.assumptions), Many(i.risks), CountNumber(i.componentCount), None,
                  Truth(i.parallel), None, Some(i.coordination), Some(i.uncertainty), Many(i.reasons), None,
                  Some(PrintDemand(i.demand)), RawQuestions(i.questions, true))
  }

  function Print(d: Decision): Payload {
    Payload(Some(RouteName(d.route)), Some(OutcomeName(d.outcome)), Some(d.title), Some(d.interpretation),
            Switches(PrintSwitches(ALL(), d.effects)),
            SpansObject(map k | k in d.spans :: Many(d.spans[k])), Truth(d.needsTools), Some(d.directResponse),
            Some(UncertaintyName(d.uncertainty)), Some(d.clarification), Some(PrintDemand(d.demand)),
            if d.intake.Some? then Some(PrintIntake(d.intake.value)) else None)
  }

  function Filtered(all: seq<Effect>, effects: seq<Effect>): seq<Effect> {
    if all == [] then []
    else Filtered(all[..|all| - 1], effects) + if all[|all| - 1] in effects then [all[|all| - 1]] else []
  }

  /** The same decision with its effects in the order of their enumeration. */
  function Canonical(d: Decision): Decision { d.(effects := Filtered(ALL(), d.effects)) }
}
