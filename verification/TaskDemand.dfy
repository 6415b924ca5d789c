/** Transport values of model-authored decisions, and the demand vector parsed from them. */
module TaskDemand {

  import opened Text

  datatype Problem =
    | BadRoute | ForcedRoute | BadOutcome | RouteOutcomeMismatch | NoInterpretation | LongTitle
    | BadEffects | UnknownEffect | BadSpans | NoAuthority | SpanNotVerbatim
    | BadFlag | BadUncertainty | NoClarification
    | BadQuestions | BadCount | BadStrings | NoText | BadLevel | NoRationale
    | ChatImplements | ChatEffects | ChatReadsWithoutTools | ChatSilent | UnexpectedIntake
    | ActionWithoutEffects | ActionWithoutTools | GoalResponds

  datatype Result<+T> = Ok(value: T) | Err(problem: Problem) {
    predicate IsFailure() { Err? }

    function PropagateFailure<U>(): Result<U>
      requires IsFailure()
    {
      Err(problem)
    }

    function Extract(): T
      requires !IsFailure()
    {
      value
    }
  }

  /** A boolean as it arrives: a truth value, a word, or something else. */
  datatype RawFlag = FlagMissing | Truth(truth: bool) | Word(word: string) | FlagOther

  /** An array of strings as it arrives: a lone string stands for an array of one, null for a wrong empty value. */
  datatype RawStrings = Absent | One(text: string) | Many(texts: seq<string>) | Null | Malformed

  /** A count as it arrives, with the value that int() makes of it. */
  datatype RawCount = CountMissing | CountNumber(number: int) | CountBool | CountUnreadable

  /** A demand level as it arrives; words and nested objects are represented by the number read from them. */
  datatype RawLevel = LevelMissing | LevelNumber(level: int) | LevelBool | LevelUnreadable

  function TextOf(raw: Option<string>): string { if raw.Some? then Strip(raw.value) else "" }

  function ParseFlag(raw: RawFlag, missing: bool): Result<bool> {
    match raw
    case FlagMissing => Ok(missing)
    case Truth(truth) => Ok(truth)
    case Word(word) =>
      var normalized := Lower(Strip(word));
      if normalized in ["true", "yes", "1"] then Ok(true)
      else if normalized in ["false", "no", "0"] then Ok(false)
      else Err(BadFlag)
    case FlagOther => Err(BadFlag)
  }

  /** The non-blank items, stripped. */
  function Clean(texts: seq<string>): seq<string> {
    if texts == [] then []
    else
      var last := Strip(texts[|texts| - 1]);
      Clean(texts[..|texts| - 1]) + if last == "" then [] else [last]
  }

  ghost predicate IsClean(texts: seq<string>) {
    forall i :: 0 <= i < |texts| ==> texts[i] != "" && Strip(texts[i]) == texts[i]
  }

  lemma {:induction false} CleanIsClean(texts: seq<string>)
    ensures IsClean(Clean(texts))
    ensures Clean(texts) == texts <==> IsClean(texts)
    ensures |Clean(texts)| <= |texts|
  {
    if texts != [] {
      var front, last := texts[..|texts| - 1], texts[|texts| - 1];
      CleanIsClean(front);
      StripTwice(last);
      assert texts == front + [last];
      if IsClean(texts) {
        assert IsClean(front);
      }
    }
  }

  function ParseStrings(raw: RawStrings): Result<seq<string>> {
    match raw
    case Absent => Ok([])
    case One(text) => Ok(Clean([text]))
    case Many(texts) => Ok(Clean(texts))
    case _ => Err(BadStrings)
  }

  lemma ParsedStringsAreClean(raw: RawStrings)
    requires ParseStrings(raw).Ok?
    ensures IsClean(ParseStrings(raw).value)
  {
    hide Clean;
    match raw
    case One(text) => CleanIsClean([text]);
    case Many(texts) => CleanIsClean(texts);
    case _ =>
  }

  function ParseCount(raw: RawCount, missing: int): Result<int> {
    match raw
    case CountMissing => Ok(missing)
    case CountNumber(number) => if number < 1 then Err(BadCount) else Ok(number)
    case _ => Err(BadCount)
  }

  /** A missing level counts as maximum demand. */
  function ParseLevel(raw: RawLevel): Result<int> {
    match raw
    case LevelMissing => Ok(4)
    case LevelNumber(level) => if 1 <= level <= 4 then Ok(level) else Err(BadLevel)
    case _ => Err(BadLevel)
  }

  datatype Levels<T> = Levels(
    reasoning: T, implementation: T, contextBreadth: T, coordination: T, verification: T, visualRuntime: T)

  datatype Demand = Demand(levels: Levels<int>, componentCount: int, parallel: bool, rationale: seq<string>)

  datatype DemandPayload = DemandPayload(
    levels: Levels<RawLevel>, componentCount: RawCount, parallel: RawFlag, rationale: RawStrings)

  function ParseLevels(raw: Levels<RawLevel>): Result<Levels<int>> {
    var reasoning :- ParseLevel(raw.reasoning);
    var implementation :- ParseLevel(raw.implementation);
    var contextBreadth :- ParseLevel(raw.contextBreadth);
    var coordination :- ParseLevel(raw.coordination);
    var verification :- ParseLevel(raw.verification);
    var visualRuntime :- ParseLevel(raw.visualRuntime);
    Ok(Levels(reasoning, implementation, contextBreadth, coordination, verification, visualRuntime))
  }

  function ParseDemand(p: DemandPayload): Result<Demand> {
    var levels :- ParseLevels(p.levels);
    var count :- ParseCount(p.componentCount, 1);
    var parallel :- ParseFlag(p.parallel, false);
    var rationale :- ParseStrings(p.rationale);
    if rationale == [] then Err(NoRationale) else Ok(Demand(levels, count, parallel, rationale))
  }

  /** The demand projected from the component count when no demand was authored. */
  function LegacyDemand(count: int, parallel: bool, reasons: seq<string>): Demand {
    var level := if count <= 1 then 1 else if count <= 2 then 2 else if count <= 4 then 3 else 4;
    var kept := NonBlank(reasons);
    Demand(Levels(level, level, level, if parallel && level < 3 then 3 else level, level, 1),
           if count < 1 then 1 else count, parallel,
           if kept == [] then ["legacy model-authored intake"] else kept)
  }

  function NonBlank(texts: seq<string>): seq<string> {
    if texts == [] then []
    else NonBlank(texts[..|texts| - 1]) + if Strip(texts[|texts| - 1]) == "" then [] else [texts[|texts| - 1]]
  }

  predicate IsLevel(level: int) { 1 <= level <= 4 }

  /** What every demand satisfies, authored or projected. */
  predicate SoundDemand(d: Demand) {
    && IsLevel(d.levels.reasoning) && IsLevel(d.levels.implementation) && IsLevel(d.levels.contextBreadth)
    && IsLevel(d.levels.coordination) && IsLevel(d.levels.verification) && IsLevel(d.levels.visualRuntime)
    && d.componentCount >= 1 && d.rationale != []
  }

  function PrintDemand(d: Demand): DemandPayload {
    var l := d.levels;
    DemandPayload(
      Levels(LevelNumber(l.reasoning), LevelNumber(l.implementation), LevelNumber(l.contextBreadth),
             LevelNumber(l.coordination), LevelNumber(l.verification), LevelNumber(l.visualRuntime)),
      CountNumber(d.componentCount), Truth(d.parallel), Many(d.rationale))
  }

  lemma ParsedDemandIsSound(p: DemandPayload)
    requires ParseDemand(p).Ok?
    ensures SoundDemand(ParseDemand(p).value) && IsClean(ParseDemand(p).value.rationale)
  {
    hide Clean, IsClean, ParseFlag;
    ParsedStringsAreClean(p.rationale);
  }

  lemma LegacyDemandIsSound(count: int, parallel: bool, reasons: seq<string>)
    ensures SoundDemand(LegacyDemand(count, parallel, reasons))
  {
    hide NonBlank;
  }

  /** A demand survives printing and parsing exactly when it is sound and its reasons are stripped. */
  lemma DemandRoundTrip(d: Demand)
    ensures ParseDemand(PrintDemand(d)) == Ok(d) <==> SoundDemand(d) && IsClean(d.rationale)
  {
    hide Clean, IsClean;
    CleanIsClean(d.rationale);
    var p := PrintDemand(d);
    if ParseDemand(p) == Ok(d) {
      ParsedDemandIsSound(p);
    }
  }
}
