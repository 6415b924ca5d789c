/**
 * What every parsed route decision satisfies, and exactly which decisions survive printing and parsing again.
 */
module RouteRoundTrip {

  import opened Text
  import opened TaskDemand
  import opened Routes

  // ---------------------------------------------------------------- what a parsed decision satisfies

  function NameSet(effects: seq<Effect>): set<string> { set e | e in effects :: Name(e) }

  ghost predicate SpansAuthorize(e: Effect, spans: seq<string>, input: string) {
    && (forall i :: 0 <= i < |spans| ==> spans[i] != "" && Contains(input, spans[i]))
    && (e != READ ==> spans != [])
  }

  /** Every effect has its spans, all verbatim user input, and only reading needs none. */
  ghost predicate Authorized(effects: seq<Effect>, spans: map<string, seq<string>>, input: string) {
    && Distinct(effects)
    && spans.Keys == NameSet(effects)
    && forall e :: e in effects ==> Name(e) in spans && SpansAuthorize(e, spans[Name(e)], input)
  }

  ghost predicate SoundIntake(i: Intake) {
    && i.objective != "" && Strip(i.objective) == i.objective
    && i.uncertainty != "" && Strip(i.uncertainty) == i.uncertainty
    && IsClean(i.deliverables) && IsClean(i.constraints) && IsClean(i.exclusions) && IsClean(i.expectations)
    && IsClean(i.assumptions) && IsClean(i.risks)
    && i.componentCount >= 1 && Strip(i.coordination) == i.coordination
    && i.reasons != [] && SoundDemand(i.demand)
    && |i.questions| <= 3 && AllAsk(i.questions)
  }

  predicate AllAsk(questions: seq<Question>) {
    forall k | 0 <= k < |questions| :: Strip(questions[k].question) != ""
  }

  predicate RouteAllows(d: Decision) {
    match d.route
    case Chat =>
      && d.demand.levels.implementation == 1 && (forall e | e in d.effects :: e == READ)
      && (d.effects != [] ==> d.needsTools) && (d.needsTools || d.directResponse != "") && d.intake.None?
    case Action => d.effects != [] && d.needsTools && d.intake.None?
    case Goal => d.directResponse == ""
  }

  ghost predicate Sound(d: Decision, input: string) {
    && OutcomeAllows(d.outcome, d.route)
    && d.interpretation != "" && Strip(d.interpretation) == d.interpretation
    && Concise(d.title)
    && Authorized(d.effects, d.spans, input)
    && Strip(d.directResponse) == d.directResponse && Strip(d.clarification) == d.clarification
    && (d.uncertainty == ClarificationNeeded ==> d.clarification != "")
    && SoundDemand(d.demand) && RouteAllows(d)
    && (d.intake.Some? ==> SoundIntake(d.intake.value))
  }

  /** The fields that a default may leave in a form the parser itself would change. */
  ghost predicate Settled(d: Decision) {
    && d.title != "" && JoinWords(d.title) == d.title
    && IsClean(d.demand.rationale)
    && (d.intake.Some? ==> SettledIntake(d.intake.value))
  }

  ghost predicate SettledIntake(i: Intake) {
    i.coordination != "" && IsClean(i.reasons) && IsClean(i.demand.rationale)
  }

  // ---------------------------------------------------------------- names

  predicate LowerCase(text: string) { forall i | 0 <= i < |text| :: !('A' <= text[i] <= 'Z') }

  lemma LowerCaseIsPlain(text: string)
    requires Trimmed(text, IsSpace) && LowerCase(text)
    ensures Token(text) == text && Strip(text) == text
  {
    TrimTrims(text, IsSpace);
    assert Lower(text) == text;
  }

  lemma NamesArePlain(e: Effect)
    ensures Token(Name(e)) == Name(e)
  {
    hide Token;
    LowerCaseIsPlain(Name(e));
  }

  lemma NamesAreDistinct(e: Effect, f: Effect)
    ensures Name(e) == Name(f) ==> e == f
  {
    assert |Name(INSTALL)| == 7 && Name(INSTALL)[0] == 'i' && Name(PREVIEW)[0] == 'p';
  }

  lemma NamesParse(e: Effect)
    ensures NamedEffect(Name(e)) == Some(e) && !NamesNothing(Name(e))
  {
    hide AliasedEffect;
    forall f
      ensures Name(e) == Name(f) ==> e == f
    {
      NamesAreDistinct(e, f);
    }
    assert Name(READ)[0] == 'r' && Name(EXTERNAL)[0] == 'e';
  }

  lemma RoutesParse(r: Route)
    ensures ParseRoute(Some(RouteName(r))) == Ok(r)
  {
    hide Token;
    LowerCaseIsPlain(RouteName(r));
    assert |RouteName(Chat)| == 4 && |RouteName(Action)| == 6;
    assert RouteName(Chat)[0] == 'c' && RouteName(Goal)[0] == 'g';
  }

  lemma OutcomesParse(o: Outcome, r: Route)
    ensures ParseOutcome(Some(OutcomeName(o)), r) == if OutcomeAllows(o, r) then Ok(o) else Err(RouteOutcomeMismatch)
  {
    hide OutcomeAllows, OutcomeName, NamedOutcome, Strip, Lower;
    OutcomesArePlain(o);
    OutcomesAreDistinct(o);
  }

  lemma OutcomesArePlain(o: Outcome)
    ensures Token(OutcomeName(o)) == OutcomeName(o)
  {
    hide Token;
    LowerCaseIsPlain(OutcomeName(o));
  }

  lemma OutcomesAreDistinct(o: Outcome)
    ensures NamedOutcome(OutcomeName(o)) == Ok(o) && OutcomeName(o) != ""
  {
    assert |OutcomeName(Conversation)| == 12 && |OutcomeName(Explanation)| == 11
           && |OutcomeName(WorkspaceOperation)| == 19 && |OutcomeName(RunnableProduct)| == 16
           && |OutcomeName(DurableProject)| == 15;
  }

  lemma ClearRespaced()
    ensures Token("clear") == "clear" && JoinWords(Respaced("clear")) == "clear" && Underscored("clear") == "clear"
  {
    hide Token, JoinWords;
    LowerCaseIsPlain("clear");
    assert Respaced("clear") == "clear";
    OneWord("clear");
  }

  lemma NeededRespaced()
    ensures Token("clarification_needed") == "clarification_needed"
    ensures JoinWords(Respaced("clarification_needed")) == "clarification needed"
  {
    hide Token, JoinWords;
    LowerCaseIsPlain("clarification_needed");
    assert Respaced("clarification_needed") == "clarification needed";
    TwoWords("clarification", "needed");
    assert "clarification" + " " + "needed" == "clarification needed";
  }

  lemma UncertaintiesParse(u: Uncertainty)
    ensures ParseUncertainty(Some(UncertaintyName(u))) == Ok(u)
  {
    hide Token, JoinWords, Respaced, Underscored;
    if u == Clear {
      ClearRespaced();
      ClearIsNoAlias();
    } else {
      NeededRespaced();
      NeededIsNotClear();
    }
  }

  lemma ClearIsNoAlias()
    ensures "clear" !in ["none", "no", "low", "certain", "resolved", "unambiguous"]
    ensures "clear" !in ["clarification needed", "needs clarification", "unclear", "ambiguous", "high"]
  {
  }

  lemma NeededIsNotClear()
    ensures "clarification needed" !in ["none", "no", "low", "certain", "resolved", "unambiguous"]
    ensures "clarification needed" in ["clarification needed", "needs clarification", "unclear", "ambiguous", "high"]
  {
    var aliases := ["clarification needed", "needs clarification", "unclear", "ambiguous", "high"];
    assert aliases[0] == "clarification needed";
  }

  lemma OneWord(w: string)
    requires IsWord(w)
    ensures JoinWords(w) == w
  {
    assert Join([w], " ") == w;
    SplitOfJoin([w]);
  }

  lemma TwoWords(w: string, x: string)
    requires IsWord(w) && IsWord(x)
    ensures JoinWords(w + " " + x) == w + " " + x
  {
    assert [w, x][1..] == [x];
    assert Join([w, x], " ") == w + " " + x;
    SplitOfJoin([w, x]);
  }

  // ---------------------------------------------------------------- titles

  lemma {:induction false} SomeWord(s: string)
    ensures Words(s) != [] <==> Strip(s) != ""
  {
    if s == "" {
    } else if IsSpace(s[0]) {
      SomeWord(s[1..]);
    } else {
      TrimRightKeepsFirst(s, IsSpace);
    }
  }

  lemma JoinStartsWithWord(ws: seq<string>)
    requires ws != [] && IsWord(ws[0])
    ensures Join(ws, " ") != "" && !IsSpace(Join(ws, " ")[0])
  {
  }

  lemma DefaultTitleShowsSomething(interpretation: string)
    requires Strip(interpretation) != ""
    ensures DefaultTitle(interpretation) != "" && !IsSpace(DefaultTitle(interpretation)[0])
  {
    SomeWord(interpretation);
    WordsAreWords(interpretation);
    var ws := Words(interpretation);
    JoinStartsWithWord(if |ws| <= 10 then ws else ws[..10]);
  }

  /** A title is kept exactly when it is already normalised, not blank and concise. */
  lemma TitleRoundTrip(title: string, interpretation: string)
    requires Strip(interpretation) != ""
    ensures ParseTitle(Some(title), interpretation) == Ok(title)
            <==> title != "" && JoinWords(title) == title && Concise(title)
  {
    hide Words, Concise, DefaultTitle, Strip;
    if JoinWords(title) == "" && title != "" {
      DefaultTitleShowsSomething(interpretation);
      if ParseTitle(Some(title), interpretation) == Ok(title) {
        BlankStart(title);
      }
    } else if title == "" {
      DefaultTitleShowsSomething(interpretation);
      EmptyJoin();
    }
  }

  lemma EmptyJoin()
    ensures JoinWords("") == ""
  {
  }

  lemma BlankStart(title: string)
    requires title != "" && JoinWords(title) == ""
    ensures IsSpace(title[0])
  {
    if !IsSpace(title[0]) {
      WordsAreWords(title);
      JoinStartsWithWord(Words(title));
    }
  }

  // ---------------------------------------------------------------- effects

  function NamesOf(effects: seq<Effect>): seq<string> {
    if effects == [] then [] else NamesOf(effects[..|effects| - 1]) + [Name(effects[|effects| - 1])]
  }

  lemma {:induction false} EnabledNamesOfPrinted(all: seq<Effect>, effects: seq<Effect>)
    ensures EnabledNames(PrintSwitches(all, effects)) == Ok(NamesOf(Filtered(all, effects)))
  {
    hide Name;
    if all != [] {
      var front, last := all[..|all| - 1], all[|all| - 1];
      EnabledNamesOfPrinted(front, effects);
      var printed := PrintSwitches(all, effects);
      assert printed[..|printed| - 1] == PrintSwitches(front, effects);
      if last in effects {
        assert Filtered(all, effects)[..|Filtered(front, effects)|] == Filtered(front, effects);
      } else {
        assert Filtered(all, effects) == Filtered(front, effects);
      }
    }
  }

  lemma {:induction false} NamesParseBack(effects: seq<Effect>)
    ensures ParseNames(NamesOf(effects)) == Ok(effects)
  {
    hide Name, Token, NamedEffect, NamesNothing;
    if effects != [] {
      var front, last := effects[..|effects| - 1], effects[|effects| - 1];
      NamesParseBack(front);
      assert NamesOf(effects)[..|NamesOf(effects)| - 1] == NamesOf(front);
      NamesArePlain(last);
      NamesParse(last);
      assert effects == front + [last];
    }
  }

  lemma {:induction false} DedupOfDistinct(effects: seq<Effect>)
    requires Distinct(effects)
    ensures Dedup(effects) == effects
  {
    if effects != [] {
      var front, last := effects[..|effects| - 1], effects[|effects| - 1];
      DedupOfDistinct(front);
      assert effects == front + [last];
      assert last !in front;
    }
  }

  lemma {:induction false} FilteredElements(all: seq<Effect>, effects: seq<Effect>)
    requires Distinct(all)
    ensures Distinct(Filtered(all, effects))
    ensures forall e :: e in Filtered(all, effects) <==> e in all && e in effects
  {
    if all != [] {
      var front, last := all[..|all| - 1], all[|all| - 1];
      FilteredElements(front, effects);
      assert all == front + [last] && last !in front;
    }
  }

  lemma CanonicalElements(effects: seq<Effect>)
    ensures Distinct(ALL()) && Distinct(Filtered(ALL(), effects))
    ensures forall e :: e in Filtered(ALL(), effects) <==> e in effects
  {
    hide Filtered;
    FilteredElements(ALL(), effects);
    forall e
      ensures e in ALL()
    {
      EveryEffect(e);
    }
  }

  lemma EveryEffect(e: Effect)
    ensures e in ALL()
  {
    var all := ALL();
    assert all[0] == READ && all[1] == WRITE && all[2] == RUN && all[3] == INSTALL && all[4] == PREVIEW
           && all[5] == EXTERNAL;
  }

  lemma PrintedEffectsParse(effects: seq<Effect>)
    ensures ParseEffects(Switches(PrintSwitches(ALL(), effects))) == Ok(Filtered(ALL(), effects))
  {
    hide ALL, Filtered, PrintSwitches, ParseNames, EnabledNames, Dedup;
    EnabledNamesOfPrinted(ALL(), effects);
    NamesParseBack(Filtered(ALL(), effects));
    CanonicalElements(effects);
    DedupOfDistinct(Filtered(ALL(), effects));
  }

  // ---------------------------------------------------------------- authority

  lemma {:induction false} NonEmptyFacts(texts: seq<string>)
    ensures forall i :: 0 <= i < |NonEmpty(texts)| ==> NonEmpty(texts)[i] != ""
    ensures (forall i :: 0 <= i < |texts| ==> texts[i] != "") ==> NonEmpty(texts) == texts
  {
    if texts != [] {
      var front, last := texts[..|texts| - 1], texts[|texts| - 1];
      NonEmptyFacts(front);
      assert texts == front + [last];
      assert forall i :: 0 <= i < |front| ==> front[i] == texts[i];
      assert NonEmpty(texts) == NonEmpty(front) + if last == "" then [] else [last];
    }
  }

  lemma SpansForAreNonEmpty(raw: map<string, RawStrings>, e: Effect)
    requires SpansFor(raw, e).Ok?
    ensures forall i :: 0 <= i < |SpansFor(raw, e).value| ==> SpansFor(raw, e).value[i] != ""
  {
    hide NonEmpty, Name;
    if Name(e) in raw {
      match raw[Name(e)]
      case One(text) => NonEmptyFacts([text]);
      case Many(texts) => NonEmptyFacts(texts);
      case _ =>
    }
  }

  lemma AuthorizedGrows(a: Authority, e: Effect, spans: seq<string>, input: string)
    requires Authorized(a.effects, a.spans, input) && e !in a.effects && SpansAuthorize(e, spans, input)
    ensures Authorized(a.effects + [e], a.spans[Name(e) := spans], input)
  {
    hide SpansAuthorize, Name;
    var effects, all := a.effects + [e], a.spans[Name(e) := spans];
    forall f | f in effects
      ensures Name(f) in all && SpansAuthorize(f, all[Name(f)], input)
    {
      NamesAreDistinct(e, f);
    }
    assert all.Keys == a.spans.Keys + {Name(e)};
    NamesOfMore(a.effects, e);
  }

  lemma NamesOfMore(effects: seq<Effect>, e: Effect)
    ensures NameSet(effects + [e]) == NameSet(effects) + {Name(e)}
  {
    hide Name;
    forall f | f in effects + [e]
      ensures Name(f) in NameSet(effects) + {Name(e)}
    {
    }
    assert (effects + [e])[|effects|] == e;
  }

  lemma GrantKeepsAuthority(sofar: Authority, e: Effect, raw: map<string, RawStrings>, input: string)
    requires Authorized(sofar.effects, sofar.spans, input) && e !in sofar.effects
    requires AuthorizeOne(sofar, e, raw, input).Ok?
    ensures var a := AuthorizeOne(sofar, e, raw, input).value;
            Authorized(a.effects, a.spans, input) && (a.effects == sofar.effects || a.effects == sofar.effects + [e])
  {
    hide SpansFor, Name, Authorized;
    SpansForAreNonEmpty(raw, e);
    var spans := SpansFor(raw, e).value;
    if !(e == EXTERNAL && spans == []) {
      AuthorizedGrows(sofar, e, spans, input);
    }
  }

  ghost predicate Within(some: seq<Effect>, effects: seq<Effect>) { forall e :: e in some ==> e in effects }

  /** Whatever the payload says, the effects that get through carry verbatim authority. */
  lemma {:induction false} GrantedEffectsAreAuthorized(effects: seq<Effect>, raw: map<string, RawStrings>, input: string)
    requires Distinct(effects) && Authorize(effects, raw, input).Ok?
    ensures var a := Authorize(effects, raw, input).value;
            Authorized(a.effects, a.spans, input) && Within(a.effects, effects)
    decreases |effects|
  {
    hide AuthorizeOne, Authorized, Distinct, Within;
    if effects == [] {
      NothingIsAuthorized(input);
      WithinGrows([], effects);
    } else {
      var front, e := effects[..|effects| - 1], effects[|effects| - 1];
      DistinctFront(effects);
      GrantedEffectsAreAuthorized(front, raw, input);
      var a := Authorize(front, raw, input).value;
      assert e !in a.effects by { OutsideStaysOutside(a.effects, front, e); }
      GrantKeepsAuthority(a, e, raw, input);
      WithinGrows(a.effects, effects);
    }
  }

  lemma OutsideStaysOutside(some: seq<Effect>, effects: seq<Effect>, e: Effect)
    requires Within(some, effects) && e !in effects
    ensures e !in some
  {
  }

  lemma WithinGrows(some: seq<Effect>, effects: seq<Effect>)
    ensures some == [] ==> Within(some, effects)
    ensures effects != [] && Within(some, effects[..|effects| - 1]) ==>
              Within(some, effects) && Within(some + [effects[|effects| - 1]], effects)
  {
  }

  lemma NothingIsAuthorized(input: string)
    ensures Authorized([], map[], input)
  {
    assert NameSet([]) == {};
  }

  lemma DistinctFront(effects: seq<Effect>)
    requires effects != [] && Distinct(effects)
    ensures Distinct(effects[..|effects| - 1]) && effects[|effects| - 1] !in effects[..|effects| - 1]
  {
  }

  lemma SpansKept(e: Effect, spans: seq<string>, raw: map<string, RawStrings>, input: string)
    requires Name(e) in raw && raw[Name(e)] == Many(spans) && SpansAuthorize(e, spans, input)
    ensures SpansFor(raw, e) == Ok(spans) && Verbatim(spans, input)
  {
    hide Name;
    NonEmptyFacts(spans);
  }

  ghost predicate Presents(raw: map<string, RawStrings>, spans: map<string, seq<string>>, effects: seq<Effect>) {
    forall e :: e in effects ==> Name(e) in spans && Name(e) in raw && raw[Name(e)] == Many(spans[Name(e)])
  }

  lemma GrantedOnce(sofar: Authority, e: Effect, spans: seq<string>, raw: map<string, RawStrings>, input: string)
    requires Name(e) in raw && raw[Name(e)] == Many(spans) && SpansAuthorize(e, spans, input)
    ensures AuthorizeOne(sofar, e, raw, input) == Ok(Authority(sofar.effects + [e], sofar.spans[Name(e) := spans]))
  {
    hide SpansFor, Name, Verbatim;
    SpansKept(e, spans, raw, input);
    SpansAreNeeded(e, spans, input);
  }

  /** Authority printed and presented again is granted again, span by span. */
  lemma {:induction false} AuthorityRoundTrip(effects: seq<Effect>, spans: map<string, seq<string>>,
                                              raw: map<string, RawStrings>, input: string)
    requires Distinct(effects) && Presents(raw, spans, effects)
    requires forall e :: e in effects ==> SpansAuthorize(e, spans[Name(e)], input)
    ensures var a := Authorize(effects, raw, input);
            && a.Ok? && a.value.effects == effects && a.value.spans.Keys == NameSet(effects)
            && forall e :: e in effects ==> a.value.spans[Name(e)] == spans[Name(e)]
    decreases |effects|
  {
    hide AuthorizeOne, SpansAuthorize, Name, Distinct;
    if effects == [] {
      assert NameSet([]) == {};
    } else {
      var front, e := effects[..|effects| - 1], effects[|effects| - 1];
      assert effects == front + [e];
      DistinctFront(effects);
      AuthorityRoundTrip(front, spans, raw, input);
      GrantedOnce(Authorize(front, raw, input).value, e, spans[Name(e)], raw, input);
      NamesOfMore(front, e);
      forall f | f in front
        ensures Name(f) != Name(e)
      {
        NamesAreDistinct(f, e);
      }
    }
  }

  lemma SpansAreNeeded(e: Effect, spans: seq<string>, input: string)
    requires SpansAuthorize(e, spans, input)
    ensures e != READ ==> spans != []
  {
  }

  // ---------------------------------------------------------------- goal intake

  lemma {:induction false} QuestionFacts(questions: seq<Question>)
    ensures |UsableQuestions(questions)| <= |questions| && AllAsk(UsableQuestions(questions))
    ensures AllAsk(questions) <==> UsableQuestions(questions) == questions
  {
    if questions != [] {
      var front, last := questions[..|questions| - 1], questions[|questions| - 1];
      QuestionFacts(front);
      assert questions == front + [last];
      if AllAsk(questions) {
        assert Strip(questions[|questions| - 1].question) != "";
        assert forall k :: 0 <= k < |front| ==> front[k] == questions[k];
      }
    }
  }

  lemma IntakeDemandIsSound(p: IntakePayload, count: int, parallel: bool, reasons: seq<string>)
    requires IntakeDemand(p, count, parallel, reasons).Ok?
    ensures SoundDemand(IntakeDemand(p, count, parallel, reasons).value)
    ensures p.demand.Some? ==> IsClean(IntakeDemand(p, count, parallel, reasons).value.rationale)
  {
    hide ParseDemand, SoundDemand, IsClean, LegacyDemand, Rebound;
    match p.demand
    case Some(d) => ParsedDemandIsSound(Rebound(d, count, parallel, reasons));
    case None =>
      LegacyDemandIsSound(count, parallel, if reasons != [] then reasons else
                          [if p.recommendation.Some? && p.recommendation.value != "" then p.recommendation.value
                           else "legacy model-authored intake"]);
  }

  lemma ListsAreClean(p: IntakePayload)
    requires ParseLists(p).Ok?
    ensures var l := ParseLists(p).value;
            IsClean(l.deliverables) && IsClean(l.constraints) && IsClean(l.exclusions) && IsClean(l.expectations)
            && IsClean(l.assumptions) && IsClean(l.risks)
  {
    hide ParseStrings, IsClean;
    ParsedStringsAreClean(p.deliverables);
    ParsedStringsAreClean(p.constraints);
    ParsedStringsAreClean(p.exclusions);
    ParsedStringsAreClean(p.expectations);
    ParsedStringsAreClean(p.assumptions);
    ParsedStringsAreClean(p.risks);
  }

  lemma RequiredIsStripped(raw: Option<string>)
    requires Required(raw).Ok?
    ensures Required(raw).value != "" && Strip(Required(raw).value) == Required(raw).value
  {
    hide Strip;
    if raw.Some? {
      StripTwice(raw.value);
    }
  }

  lemma CoordinationIsStripped(p: IntakePayload)
    ensures Strip(CoordinationSummary(p)) == CoordinationSummary(p)
    ensures TextOf(p.coordinationSummary) != "" ==> CoordinationSummary(p) != ""
  {
    hide Strip;
    if p.coordinationSummary.Some? {
      StripTwice(p.coordinationSummary.value);
    }
    if p.coordination.Some? {
      StripTwice(p.coordination.value);
    }
    TrimTrims("single coordinated workflow", IsSpace);
    DefaultCoordination();
  }

  lemma DefaultCoordination()
    ensures Strip("single coordinated workflow") == "single coordinated workflow"
  {
    hide Strip;
    LowerCaseIsPlain("single coordinated workflow");
  }

  /** Every parsed intake is sound; with an authored summary and demand it is settled too. */
  lemma ParsedIntakeIsSound(p: IntakePayload)
    requires ParseIntake(p).Ok?
    ensures SoundIntake(ParseIntake(p).value)
    ensures TextOf(p.coordinationSummary) != "" && p.demand.Some? ==> SettledIntake(ParseIntake(p).value)
  {
    hide IsClean, Strip, TextOf, TokenOf, ParseFlag, ParseStrings, ParseLists, IntakeDemand, Required, UsableQuestions,
      CoordinationSummary, AllAsk;
    var i := ParseIntake(p).value;
    ParsedStringsAreClean(p.reasons);
    var reasons := ParseStrings(p.reasons).value;
    IntakeDemandIsSound(p, i.componentCount, i.parallel, reasons);
    RequiredIsStripped(p.objective);
    RequiredIsStripped(p.uncertainty);
    ListsAreClean(p);
    CoordinationIsStripped(p);
    QuestionFacts(p.questions.questions);
  }

  lemma PrintedListsParse(i: Intake)
    requires SoundIntake(i)
    ensures ParseLists(PrintIntake(i))
            == Ok(Lists(i.deliverables, i.constraints, i.exclusions, i.expectations, i.assumptions, i.risks))
  {
    hide Clean, IsClean;
    CleanIsClean(i.deliverables);
    CleanIsClean(i.constraints);
    CleanIsClean(i.exclusions);
    CleanIsClean(i.expectations);
    CleanIsClean(i.assumptions);
    CleanIsClean(i.risks);
  }

  /** The parts of an intake that a default can spoil are kept exactly when they are settled. */
  lemma IntakeRoundTrip(i: Intake)
    ensures ParseIntake(PrintIntake(i)) == Ok(i) <==> SoundIntake(i) && SettledIntake(i)
  {
    hide IsClean, Clean, Strip, ParseLists, ParseDemand, UsableQuestions, AllAsk, PrintDemand, Lower;
    var p := PrintIntake(i);
    if SoundIntake(i) && SettledIntake(i) {
      CleanIsClean(i.reasons);
      PrintedListsParse(i);
      QuestionFacts(i.questions);
      assert IntakeDemand(p, i.componentCount, i.parallel, i.reasons) == Ok(i.demand) by {
        DemandRoundTrip(i.demand);
        PrintedDemandIsComplete(p, i);
      }
    } else if ParseIntake(p) == Ok(i) {
      if Strip(i.coordination) == "" {
        DefaultCoordinationShows(p);
      }
      ParsedIntakeIsSound(p);
    }
  }

  lemma PrintedDemandIsComplete(p: IntakePayload, i: Intake)
    requires p == PrintIntake(i) && i.demand.rationale != []
    ensures Rebound(PrintDemand(i.demand), i.componentCount, i.parallel, i.reasons) == PrintDemand(i.demand)
  {
  }

  lemma DefaultCoordinationShows(p: IntakePayload)
    requires p.coordination.None? && TextOf(p.coordinationSummary) == ""
    ensures CoordinationSummary(p) != "" && Strip(CoordinationSummary(p)) != ""
  {
    hide Strip;
    DefaultCoordination();
  }

  // ---------------------------------------------------------------- whole decisions

  /** Every stage of the parser agrees with the decision. */
  ghost predicate Stages(p: Payload, input: string, forced: Option<Route>, wantIntake: bool, d: Decision) {
    && ParseRoute(p.route) == Ok(d.route) && (forced.Some? ==> forced.value == d.route)
    && ParseOutcome(p.outcome, d.route) == Ok(d.outcome)
    && TextOf(p.interpretation) == d.interpretation && d.interpretation != ""
    && ParseTitle(p.title, d.interpretation) == Ok(d.title)
    && ParseAuthority(p.effects, p.spans, input) == Ok(Authority(d.effects, d.spans))
    && ParseFlag(p.needsTools, false) == Ok(d.needsTools)
    && TextOf(p.directResponse) == d.directResponse
    && ParseUncertainty(p.uncertainty) == Ok(d.uncertainty)
    && TextOf(p.clarification) == d.clarification && (d.uncertainty == ClarificationNeeded ==> d.clarification != "")
    && ParseOptionalIntake(p.intake, wantIntake) == Ok(d.intake)
    && ParseDecisionDemand(p.demand, d.intake) == Ok(d.demand)
    && CheckRoute(d) == Ok(d)
  }

  lemma ParsedInStages(p: Payload, input: string, forced: Option<Route>, wantIntake: bool, d: Decision)
    ensures ParseRepaired(p, input, forced, wantIntake) == Ok(d) <==> Stages(p, input, forced, wantIntake, d)
  {
    hide ParseRoute, ParseOutcome, TextOf, ParseTitle, ParseAuthority, ParseFlag, ParseUncertainty,
      ParseOptionalIntake, ParseDecisionDemand;
  }

  lemma CheckedRoutesAreAllowed(d: Decision)
    requires SoundDemand(d.demand)
    ensures CheckRoute(d) == Ok(d) <==> RouteAllows(d)
  {
  }

  lemma TextIsStripped(raw: Option<string>)
    ensures Strip(TextOf(raw)) == TextOf(raw)
  {
    hide Strip;
    if raw.Some? {
      StripTwice(raw.value);
    } else {
      TrimTrims("", IsSpace);
      EmptyStrip();
    }
  }

  lemma EmptyStrip()
    ensures Strip("") == ""
  {
  }

  lemma DecisionDemandIsSound(raw: Option<DemandPayload>, intake: Option<Intake>)
    requires ParseDecisionDemand(raw, intake).Ok?
    ensures SoundDemand(ParseDecisionDemand(raw, intake).value)
    ensures raw.Some? ==> IsClean(ParseDecisionDemand(raw, intake).value.rationale)
  {
    hide ParseDemand, SoundDemand, IsClean, LegacyDemand;
    match raw
    case Some(d) => ParsedDemandIsSound(d);
    case None =>
      if intake.Some? {
        LegacyDemandIsSound(intake.value.componentCount, intake.value.parallel, intake.value.reasons);
      } else {
        LegacyDemandIsSound(1, false, ["legacy model-authored semantic route"]);
      }
  }

  lemma ParsedAuthorityIsAuthorized(effects: RawEffects, spans: RawSpans, input: string)
    requires ParseAuthority(effects, spans, input).Ok?
    ensures var a := ParseAuthority(effects, spans, input).value; Authorized(a.effects, a.spans, input)
  {
    hide ParseEffects, Authorize, Authorized;
    var parsed := ParseEffects(effects).value;
    assert Distinct(parsed) by { ParsedEffectsAreDistinct(effects); }
    GrantedEffectsAreAuthorized(parsed, if spans.SpansObject? then spans.spans else map[], input);
  }

  lemma ParsedEffectsAreDistinct(effects: RawEffects)
    requires ParseEffects(effects).Ok?
    ensures Distinct(ParseEffects(effects).value)
  {
    hide ParseNames, EffectNames, Dedup;
    DedupElements(ParseNames(EffectNames(effects).value).value);
  }

  /** What a payload supplies itself, so that no default is taken for it. */
  predicate Supplied(p: Payload) {
    && p.title.Some? && JoinWords(p.title.value) != ""
    && p.demand.Some?
    && (p.intake.Some? ==> TextOf(p.intake.value.coordinationSummary) != "" && p.intake.value.demand.Some?)
  }

  lemma TitleIsSettled(raw: Option<string>, interpretation: string)
    requires ParseTitle(raw, interpretation).Ok?
    ensures Concise(ParseTitle(raw, interpretation).value)
    ensures raw.Some? && JoinWords(raw.value) != "" ==>
              var t := ParseTitle(raw, interpretation).value; t != "" && JoinWords(t) == t
  {
    hide JoinWords, Concise, DefaultTitle;
    if raw.Some? {
      JoinWordsTwice(raw.value);
    }
  }

  lemma RepairedDecisionsAreSound(p: Payload, input: string, forced: Option<Route>, wantIntake: bool)
    requires ParseRepaired(p, input, forced, wantIntake).Ok?
    ensures var d := ParseRepaired(p, input, forced, wantIntake).value;
            Sound(d, input) && (Supplied(p) ==> Settled(d)) && (forced.Some? ==> d.route == forced.value)
  {
    hide ParseRepaired, ParseRoute, TextOf, ParseTitle, ParseAuthority, ParseFlag, ParseUncertainty, ParseIntake,
      ParseDecisionDemand, CheckRoute, OutcomeAllows, Strip, SoundIntake, SettledIntake, IsClean, SoundDemand,
      Authorized, RouteAllows, Concise, JoinWords, NamedOutcome;
    var d := ParseRepaired(p, input, forced, wantIntake).value;
    ParsedInStages(p, input, forced, wantIntake, d);
    TextIsStripped(p.interpretation);
    TextIsStripped(p.directResponse);
    TextIsStripped(p.clarification);
    TitleIsSettled(p.title, d.interpretation);
    ParsedAuthorityIsAuthorized(p.effects, p.spans, input);
    DecisionDemandIsSound(p.demand, d.intake);
    CheckedRoutesAreAllowed(d);
    if d.intake.Some? {
      ParsedIntakeIsSound(p.intake.value);
    }
  }

  lemma RepairsKeepTheRest(p: Payload)
    ensures var q := ContractOutcome(DropGoalResponse(p));
            q == p.(outcome := q.outcome, directResponse := q.directResponse)
  {
    hide TokenOf, TextOf, LocalOperation, RouteName, OutcomeName;
  }

  /** Every decision the parser accepts is sound, and settled when the payload supplied what defaults replace. */
  lemma ParsedDecisionsAreSound(p: Payload, input: string, forced: Option<Route>, wantIntake: bool)
    requires Parse(p, input, forced, wantIntake).Ok?
    ensures var d := Parse(p, input, forced, wantIntake).value;
            Sound(d, input) && (Supplied(p) ==> Settled(d)) && (forced.Some? ==> d.route == forced.value)
  {
    hide ParseRepaired, Sound, Settled, ContractOutcome, DropGoalResponse, JoinWords, TextOf;
    RepairsKeepTheRest(p);
    RepairedDecisionsAreSound(ContractOutcome(DropGoalResponse(p)), input, forced, wantIntake);
  }

  // ---------------------------------------------------------------- the round trip

  lemma PrintedPayloadNeedsNoRepair(d: Decision)
    requires OutcomeAllows(d.outcome, d.route) && Strip(d.directResponse) == d.directResponse && RouteAllows(d)
    ensures ContractOutcome(DropGoalResponse(Print(d))) == Print(d)
  {
    hide PrintDemand, PrintIntake, PrintSwitches, ALL, LocalOperation, RouteName, OutcomeName, Strip, Lower;
    RoutesAreDistinct(d.route);
    OutcomesArePlain(d.outcome);
    OutcomesDiffer(d.outcome);
  }

  lemma RoutesAreDistinct(r: Route)
    ensures TokenOf(Some(RouteName(r))) == RouteName(r)
    ensures forall q :: RouteName(q) == RouteName(r) ==> q == r
  {
    hide Lower, Strip;
    LowerCaseIsPlain(RouteName(r));
    assert RouteName(Chat)[0] == 'c' && RouteName(Goal)[0] == 'g';
    assert |RouteName(Chat)| == 4 && |RouteName(Action)| == 6;
  }

  lemma OutcomesDiffer(o: Outcome)
    ensures OutcomeName(o) == OutcomeName(RunnableProduct) ==> o == RunnableProduct
    ensures OutcomeName(o) == OutcomeName(DurableProject) ==> o == DurableProject
  {
    assert |OutcomeName(Conversation)| == 12 && |OutcomeName(Explanation)| == 11
           && |OutcomeName(WorkspaceOperation)| == 19 && |OutcomeName(RunnableProduct)| == 16
           && |OutcomeName(DurableProject)| == 15;
  }

  lemma PrintedAuthorityParses(d: Decision, input: string)
    requires var c := Canonical(d); Authorized(c.effects, c.spans, input)
    ensures ParseAuthority(Print(d).effects, Print(d).spans, input) == Ok(Authority(Canonical(d).effects, d.spans))
  {
    hide ParseEffects, Authorize, Filtered, PrintSwitches, ALL, Name, SpansAuthorize;
    PrintedEffectsParse(d.effects);
    var effects := Filtered(ALL(), d.effects);
    var raw := Print(d).spans.spans;
    AuthorityRoundTrip(effects, d.spans, raw, input);
    var a := Authorize(effects, raw, input).value;
    forall k | k in d.spans
      ensures a.spans[k] == d.spans[k]
    {
      var e :| e in effects && Name(e) == k;
    }
    assert a.spans == d.spans;
  }

  lemma PrintedStages(d: Decision, input: string)
    requires Sound(Canonical(d), input) && Settled(d)
    ensures Stages(Print(d), input, None, true, Canonical(d))
  {
    hide ParseRoute, ParseOutcome, ParseTitle, ParseAuthority, ParseUncertainty, ParseIntake, ParseDemand, CheckRoute,
      OutcomeAllows, Strip, SoundIntake, SettledIntake, IsClean, SoundDemand, Authorized, RouteAllows, Concise,
      JoinWords, PrintSwitches, PrintDemand, PrintIntake, ALL, Filtered, RouteName, OutcomeName, UncertaintyName;
    RoutesParse(d.route);
    OutcomesParse(d.outcome, d.route);
    TitleRoundTrip(d.title, d.interpretation);
    PrintedAuthorityParses(d, input);
    UncertaintiesParse(d.uncertainty);
    DemandRoundTrip(d.demand);
    CheckedRoutesAreAllowed(Canonical(d));
    if d.intake.Some? {
      IntakeRoundTrip(d.intake.value);
    }
  }

  lemma SurvivorsAreSettled(d: Decision, p: Payload, input: string)
    requires p == Print(d).(outcome := p.outcome, directResponse := p.directResponse)
    requires Stages(p, input, None, true, Canonical(d)) && Strip(d.interpretation) == d.interpretation
    ensures Settled(d)
  {
    hide ParseRoute, ParseOutcome, ParseTitle, ParseAuthority, ParseUncertainty, ParseIntake, ParseDemand, CheckRoute,
      Strip, SoundIntake, SettledIntake, IsClean, SoundDemand, Concise,
      JoinWords, PrintSwitches, PrintDemand, PrintIntake, ALL, Filtered, RouteName, OutcomeName, UncertaintyName;
    TitleRoundTrip(d.title, d.interpretation);
    DemandRoundTrip(d.demand);
    if d.intake.Some? {
      IntakeRoundTrip(d.intake.value);
    }
  }

  /**
   * Printing a decision and parsing it again with the same user input gives the same decision, effects in their
   * enumeration order, exactly when the decision is sound and no default left it unsettled.
   */
  lemma DecisionRoundTrip(d: Decision, input: string)
    ensures Parse(Print(d), input, None, true) == Ok(Canonical(d)) <==> Sound(Canonical(d), input) && Settled(d)
  {
    hide ParseRepaired, Sound, Settled, Print, ContractOutcome, DropGoalResponse, Stages, Canonical;
    var p := ContractOutcome(DropGoalResponse(Print(d)));
    ParsedInStages(p, input, None, true, Canonical(d));
    RepairsKeepTheRest(Print(d));
    if Sound(Canonical(d), input) && Settled(d) {
      SoundFacts(d, input);
      PrintedPayloadNeedsNoRepair(d);
      PrintedStages(d, input);
    }
    if Parse(Print(d), input, None, true) == Ok(Canonical(d)) {
      ParsedDecisionsAreSound(Print(d), input, None, true);
      SoundFacts(d, input);
      SurvivorsAreSettled(d, p, input);
    }
  }

  lemma SoundFacts(d: Decision, input: string)
    requires Sound(Canonical(d), input)
    ensures OutcomeAllows(d.outcome, d.route) && Strip(d.directResponse) == d.directResponse
    ensures Strip(d.interpretation) == d.interpretation && RouteAllows(d)
  {
    hide Authorized, Filtered, ALL, OutcomeAllows, Strip, Concise, SoundDemand, SoundIntake;
    CanonicalElements(d.effects);
    if d.effects == [] {
      NoneFiltered(ALL());
    } else {
      assert d.effects[0] in Filtered(ALL(), d.effects);
    }
  }

  lemma {:induction false} NoneFiltered(all: seq<Effect>)
    ensures Filtered(all, []) == []
  {
    if all != [] {
      NoneFiltered(all[..|all| - 1]);
    }
  }

  /** A decision parsed from a payload that supplied title, demand and coordination survives the round trip. */
  lemma SuppliedDecisionsRoundTrip(p: Payload, input: string, forced: Option<Route>, wantIntake: bool)
    requires Supplied(p) && Parse(p, input, forced, wantIntake).Ok?
    ensures var d := Parse(p, input, forced, wantIntake).value;
            Parse(Print(d), input, None, true) == Ok(Canonical(d))
  {
    hide Parse, Sound, Settled, Canonical, Supplied;
    ParsedDecisionsAreSound(p, input, forced, wantIntake);
    var d := Parse(p, input, forced, wantIntake).value;
    CanonicalIsSound(d, input);
    DecisionRoundTrip(d, input);
  }

  lemma CanonicalIsSound(d: Decision, input: string)
    requires Sound(d, input)
    ensures Sound(Canonical(d), input)
  {
    hide Filtered, ALL, OutcomeAllows, Strip, Concise, SoundDemand, SoundIntake, Authorized;
    CanonicalIsAuthorized(d, input);
    CanonicalElements(d.effects);
    if d.effects == [] {
      NoneFiltered(ALL());
    } else {
      assert d.effects[0] in Filtered(ALL(), d.effects);
    }
  }

  lemma CanonicalIsAuthorized(d: Decision, input: string)
    requires Authorized(d.effects, d.spans, input)
    ensures Authorized(Canonical(d).effects, d.spans, input)
  {
    hide Filtered, ALL, SpansAuthorize, Name;
    CanonicalElements(d.effects);
    assert NameSet(Filtered(ALL(), d.effects)) == NameSet(d.effects);
  }
}
