/** Strategy selection: how model facts and task demand decide between staged and recursive execution. */
module Strategy {

  import opened Text
  import opened TaskDemand

  datatype Band = Minimal | Limited | Standard | High

  datatype Mode = Staged | Recursive

  /** What is known of a model: its size in billions of parameters, its context window, and the rest. */
  datatype Facts = Facts(parameters: Option<real>, context: Option<int>, band: Option<Band>, concurrency: Option<int>)

  datatype Envelope = Envelope(band: Band, complete: bool, maxConcurrency: nat)

  datatype Selection = Selection(mode: Mode, concurrency: nat)

  function Level(b: Band): nat {
    match b
    case Minimal => 1
    case Limited => 2
    case Standard => 3
    case High => 4
  }

  function CohesiveComponents(b: Band): nat {
    match b
    case Minimal => 1
    case Limited => 2
    case Standard => 4
    case High => 8
  }

  /** A numeric size as parsed: figures of a million and more are raw parameter counts. */
  function ParsedSize(raw: real): Option<real> {
    if raw <= 0.0 then None else if raw >= 1000000.0 then Some(raw / 1000000000.0) else Some(raw)
  }

  function BandFor(parameters: real): Band {
    if parameters < 4.0 then Minimal else if parameters < 15.0 then Limited else if parameters < 70.0 then Standard else High
  }

  function EnvelopeOf(f: Facts): Envelope {
    var complete := f.parameters.Some? && f.context.Some?;
    Envelope(if !complete then Minimal else if f.band.Some? then f.band.value else BandFor(f.parameters.value),
             complete, if f.concurrency.Some? && f.concurrency.value > 1 then f.concurrency.value else 1)
  }

  function Larger(a: int, b: int): int { if a >= b then a else b }

  function MaximumLevel(l: Levels<int>): int {
    Larger(l.reasoning, Larger(l.implementation, Larger(l.contextBreadth,
           Larger(l.coordination, Larger(l.verification, l.visualRuntime)))))
  }

  function Select(e: Envelope, d: Demand, minimum: Mode, escalate: bool): Selection {
    var exceeds := MaximumLevel(d.levels) > Level(e.band) || d.componentCount > CohesiveComponents(e.band);
    var mode := if (escalate && exceeds) || minimum == Recursive then Recursive else Staged;
    var workers := if mode == Recursive && d.parallel
                   then if e.maxConcurrency <= d.componentCount then e.maxConcurrency else d.componentCount
                   else 1;
    Selection(mode, if workers > 1 then workers else 1)
  }

  /** No demand of `d` is below the one of `c`. */
  predicate AtLeastAsDemanding(d: Demand, c: Demand) {
    && d.levels.reasoning >= c.levels.reasoning && d.levels.implementation >= c.levels.implementation
    && d.levels.contextBreadth >= c.levels.contextBreadth && d.levels.coordination >= c.levels.coordination
    && d.levels.verification >= c.levels.verification && d.levels.visualRuntime >= c.levels.visualRuntime
    && d.componentCount >= c.componentCount
  }

  /** Nothing in `f` is trusted more than in `g`: size and context are unknown or no larger, and the stated band agrees. */
  predicate AtMostAsTrusted(f: Facts, g: Facts) {
    && f.band == g.band
    && (f.parameters.Some? ==> g.parameters.Some? && f.parameters.value <= g.parameters.value)
    && (f.context.Some? ==> g.context.Some?)
  }

  lemma WeakerFactsWeakerBand(f: Facts, g: Facts)
    requires AtMostAsTrusted(f, g)
    ensures Level(EnvelopeOf(f).band) <= Level(EnvelopeOf(g).band)
    ensures CohesiveComponents(EnvelopeOf(f).band) <= CohesiveComponents(EnvelopeOf(g).band)
  {
  }

  /**
   * More demand and weaker or unknown model facts never turn recursive execution into staged execution, with
   * escalation on or off.
   */
  lemma SelectionIsMonotone(f: Facts, g: Facts, d: Demand, c: Demand, minimum: Mode, escalate: bool)
    requires AtMostAsTrusted(f, g) && AtLeastAsDemanding(d, c)
    ensures Select(EnvelopeOf(g), c, minimum, escalate).mode == Recursive
            ==> Select(EnvelopeOf(f), d, minimum, escalate).mode == Recursive
  {
    hide EnvelopeOf, Level, CohesiveComponents;
    WeakerFactsWeakerBand(f, g);
  }

  /** The largest of the six levels. */
  lemma MaximumIsTheLargest(l: Levels<int>)
    ensures var all := {l.reasoning, l.implementation, l.contextBreadth, l.coordination, l.verification, l.visualRuntime};
            MaximumLevel(l) in all && forall level :: level in all ==> level <= MaximumLevel(l)
  {
  }

  /** Size and context are known, and the model is of this band at least: by statement, or else by its size. */
  predicate Reaches(f: Facts, band: Band, size: real) {
    && f.parameters.Some? && f.context.Some?
    && if f.band.Some? then f.band.value == band || f.band.value == High || (f.band.value == Standard && band == Limited)
       else f.parameters.value >= size
  }

  /** One level of demand, together with so many components, is within a model's means. */
  predicate Handles(f: Facts, level: int, components: int) {
    || (level <= 1 && components <= 1)
    || (level <= 2 && components <= 2 && Reaches(f, Limited, 4.0))
    || (level <= 3 && components <= 4 && Reaches(f, Standard, 15.0))
    || (level <= 4 && components <= 8 && Reaches(f, High, 70.0))
  }

  /**
   * A task is staged exactly if that is the minimum and, where escalation is on, the model can handle each level it asks
   * for with all its components.
   */
  lemma StagedIffHandled(f: Facts, d: Demand, minimum: Mode, escalate: bool)
    ensures Select(EnvelopeOf(f), d, minimum, escalate).mode == Staged <==>
              minimum == Staged
              && (escalate ==>
                    && Handles(f, d.levels.reasoning, d.componentCount)
                    && Handles(f, d.levels.implementation, d.componentCount)
                    && Handles(f, d.levels.contextBreadth, d.componentCount)
                    && Handles(f, d.levels.coordination, d.componentCount)
                    && Handles(f, d.levels.verification, d.componentCount)
                    && Handles(f, d.levels.visualRuntime, d.componentCount))
  {
    MaximumIsTheLargest(d.levels);
  }

  /** A task gets as many workers as model and task allow in parallel recursion, and otherwise one. */
  lemma WorkersAreTheMost(f: Facts, d: Demand, minimum: Mode, escalate: bool, n: int)
    ensures var s := Select(EnvelopeOf(f), d, minimum, escalate);
            n <= s.concurrency <==>
              n <= 1 || (s.mode == Recursive && d.parallel && f.concurrency.Some? && n <= f.concurrency.value
                         && n <= d.componentCount)
  {
    hide MaximumLevel, Level, CohesiveComponents;
  }

  /** Positive figures have a size: themselves below a million, and billions of parameters from there on. */
  lemma SizesMean(raw: real)
    ensures ParsedSize(raw).Some? <==> raw > 0.0
    ensures 0.0 < raw < 1000000.0 ==> ParsedSize(raw) == Some(raw)
    ensures raw >= 1000000.0 ==> ParsedSize(raw).value * 1000000000.0 == raw
  {
  }

  /** Workers never exceed what the model and the task allow, and there is always one. */
  lemma ConcurrencyIsBounded(e: Envelope, d: Demand, minimum: Mode, escalate: bool)
    requires e.maxConcurrency >= 1 && d.componentCount >= 1
    ensures var s := Select(e, d, minimum, escalate);
            && 1 <= s.concurrency <= e.maxConcurrency && s.concurrency <= d.componentCount
            && (s.concurrency > 1 ==> s.mode == Recursive && d.parallel)
  {
  }

  /** Levels of `q` that are missing where `p` gives them. */
  predicate OmitsLevels(q: DemandPayload, p: DemandPayload) {
    && q == p.(levels := q.levels)
    && q.levels.reasoning in {p.levels.reasoning, LevelMissing}
    && q.levels.implementation in {p.levels.implementation, LevelMissing}
    && q.levels.contextBreadth in {p.levels.contextBreadth, LevelMissing}
    && q.levels.coordination in {p.levels.coordination, LevelMissing}
    && q.levels.verification in {p.levels.verification, LevelMissing}
    && q.levels.visualRuntime in {p.levels.visualRuntime, LevelMissing}
  }

  /** A demand level left out of a payload can only make the selection more conservative. */
  lemma MissingLevelsAreConservative(p: DemandPayload, q: DemandPayload, f: Facts, minimum: Mode, escalate: bool)
    requires ParseDemand(p).Ok? && OmitsLevels(q, p)
    ensures ParseDemand(q).Ok? && AtLeastAsDemanding(ParseDemand(q).value, ParseDemand(p).value)
    ensures Select(EnvelopeOf(f), ParseDemand(p).value, minimum, escalate).mode == Recursive
            ==> Select(EnvelopeOf(f), ParseDemand(q).value, minimum, escalate).mode == Recursive
  {
    hide EnvelopeOf, Select, ParseStrings, ParseFlag;
    SelectionIsMonotone(f, f, ParseDemand(q).value, ParseDemand(p).value, minimum, escalate);
  }

  /**
   * The raw figure is not monotone: lowering it across one million turns a small model into an enormous one, and
   * recursive execution into staged execution. Below and above that point the parsed size grows with the figure.
   */
  lemma RawFiguresJumpAtAMillion(raw: real, lower: real)
    requires 0.0 < lower <= raw
    ensures ParsedSize(lower).value <= ParsedSize(raw).value
            <==> lower >= 1000000.0 || raw < 1000000.0 || lower <= raw / 1000000000.0
  {
  }

  lemma LoweredFigureStagesTheTask(d: Demand)
    requires SoundDemand(d) && 1 < MaximumLevel(d.levels) && d.componentCount <= 8
    ensures var small := Facts(ParsedSize(1000000.0), Some(1), None, None);
            var large := Facts(ParsedSize(999999.0), Some(1), None, None);
            && Select(EnvelopeOf(small), d, Staged, true).mode == Recursive
            && Select(EnvelopeOf(large), d, Staged, true).mode == Staged
  {
    assert EnvelopeOf(Facts(ParsedSize(1000000.0), Some(1), None, None)).band == Minimal;
    assert EnvelopeOf(Facts(ParsedSize(999999.0), Some(1), None, None)).band == High;
  }
}
