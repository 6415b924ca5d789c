/** The quality convergence engine: evaluations bound to a mutation counter decide refinement, blocking and release. */
module Convergence {

  datatype QualityState =
    | NotEvaluated | Evaluating | BelowTarget | Refining | Reverifying | Converged | Blocked | UserReviewRequired

  datatype Dimension = Dimension(id: string, minimumScore: real)

  datatype Score = Score(dimensionId: string, score: real)

  datatype Evaluation = Evaluation(
    targetId: string,
    artifacts: set<string>,
    scores: seq<Score>,
    hardGateResults: map<string, bool>,
    evaluatorId: string,
    independent: bool,
    overallScore: real,
    mutationSequence: int)

  datatype Target = Target(
    id: string,
    artifactIds: set<string>,
    dimensions: seq<Dimension>,
    hardGates: set<string>,
    minimumOverallScore: real,
    independentEvaluations: nat,
    stableSuccessfulEvaluations: nat,
    plateauWindow: nat,
    plateauDelta: real)

  /** The checks a target makes on construction. */
  predicate ValidTarget(t: Target) {
    && t.artifactIds != {}
    && 0.0 <= t.minimumOverallScore <= 1.0
    && t.independentEvaluations >= 1 && t.stableSuccessfulEvaluations >= 1
    && t.plateauWindow >= 2 && 0.0 <= t.plateauDelta <= 1.0
  }

  /** The score that a dict built from `scores` holds for `id`. */
  predicate Reaches(scores: seq<Score>, id: string, minimum: real) {
    scores != []
    && (if scores[|scores| - 1].dimensionId == id then scores[|scores| - 1].score >= minimum
        else Reaches(scores[..|scores| - 1], id, minimum))
  }

  predicate Passes(t: Target, v: Evaluation) {
    && v.targetId == t.id
    && v.overallScore >= t.minimumOverallScore
    && (forall gate | gate in t.hardGates :: gate in v.hardGateResults && v.hardGateResults[gate])
    && (forall d | d in t.dimensions :: Reaches(v.scores, d.id, d.minimumScore))
  }

  function Last(history: seq<Evaluation>, n: nat): seq<Evaluation> {
    if |history| <= n then history else history[|history| - n..]
  }

  function Highest(history: seq<Evaluation>): real
    requires history != []
  {
    if |history| == 1 then history[0].overallScore
    else
      var rest := Highest(history[1..]);
      if history[0].overallScore > rest then history[0].overallScore else rest
  }

  function Lowest(history: seq<Evaluation>): real
    requires history != []
  {
    if |history| == 1 then history[0].overallScore
    else
      var rest := Lowest(history[1..]);
      if history[0].overallScore < rest then history[0].overallScore else rest
  }

  predicate Plateau(t: Target, history: seq<Evaluation>)
    requires history != []
  {
    var recent := Last(history, t.plateauWindow);
    recent != [] && |recent| >= t.plateauWindow && Highest(recent) - Lowest(recent) < t.plateauDelta
  }

  /** The evaluations of the current mutation, latest first. */
  function FreshFirst(history: seq<Evaluation>, sequence: int): seq<Evaluation> {
    if history == [] then []
    else
      (if history[|history| - 1].mutationSequence == sequence then [history[|history| - 1]] else [])
      + FreshFirst(history[..|history| - 1], sequence)
  }

  function Required(t: Target): nat {
    if t.independentEvaluations > t.stableSuccessfulEvaluations then t.independentEvaluations
    else t.stableSuccessfulEvaluations
  }

  function Evaluators(recent: seq<Evaluation>): set<string> {
    set v | v in recent && v.independent :: v.evaluatorId
  }

  function FirstN(xs: seq<Evaluation>, n: nat): seq<Evaluation> { if |xs| <= n then xs else xs[..n] }

  function Decide(t: Target, history: seq<Evaluation>, sequence: int): QualityState
    requires history != []
  {
    if !Passes(t, history[|history| - 1]) then
      if Plateau(t, history) then Blocked else BelowTarget
    else
      var recent := FirstN(FreshFirst(history, sequence), Required(t));
      if |recent| < Required(t) || exists v :: v in recent && !Passes(t, v) then Evaluating
      else if t.independentEvaluations > 1 && |Evaluators(recent)| < t.independentEvaluations then Evaluating
      else Converged
  }

  datatype Engine = Engine(state: QualityState, history: seq<Evaluation>, sequence: int)

  datatype Outcome = Stale | Uncovered | Accepted(state: QualityState)

  function Initial(): Engine { Engine(NotEvaluated, [], 0) }

  function Mutate(e: Engine): Engine { e.(sequence := e.sequence + 1, state := Reverifying) }

  function Verdict(t: Target, e: Engine, v: Evaluation): Outcome {
    if v.mutationSequence != e.sequence then Stale
    else if v.artifacts != t.artifactIds then Uncovered
    else Accepted(Decide(t, e.history + [v], e.sequence))
  }

  /** A rejected evaluation still leaves the engine evaluating. */
  function Offer(t: Target, e: Engine, v: Evaluation): Engine {
    match Verdict(t, e, v)
    case Accepted(state) => Engine(state, e.history + [v], e.sequence)
    case _ => e.(state := Evaluating)
  }

  predicate MayRelease(e: Engine, unresolved: nat, uncertain: nat) {
    e.state == Converged && unresolved == 0 && uncertain == 0
  }

  class QualityConvergenceEngine {
    const target: Target
    var state: QualityState
    var evaluations: seq<Evaluation>
    var latestMutationSequence: int

    function View(): Engine
      reads this
    {
      Engine(state, evaluations, latestMutationSequence)
    }

    constructor (target: Target)
      ensures View() == Initial() && this.target == target
    {
      this.target := target;
      state, evaluations, latestMutationSequence := NotEvaluated, [], 0;
    }

    method Mutated()
      modifies this
      ensures View() == Mutate(old(View()))
    {
      latestMutationSequence := latestMutationSequence + 1;
      state := Reverifying;
    }

    method AcceptEvaluation(v: Evaluation) returns (outcome: Outcome)
      modifies this
      ensures outcome == Verdict(target, old(View()), v)
      ensures View() == Offer(target, old(View()), v)
      ensures outcome.Accepted? ==> (outcome.state in {BelowTarget, Blocked} <==> !MeetsTarget(target, v))
    {
      PassingIsMeeting(target, v);
      hide MeetsTarget, Passes;
      state := Evaluating;
      if v.mutationSequence != latestMutationSequence {
        return Stale;
      }
      if v.artifacts != target.artifactIds {
        return Uncovered;
      }
      evaluations := evaluations + [v];
      if !Passes(target, v) {
        state := if Plateau(target, evaluations) then Blocked else BelowTarget;
        return Accepted(state);
      }
      var required := Required(target);
      var recent := FirstN(FreshFirst(evaluations, latestMutationSequence), required);
      if |recent| < required || exists item :: item in recent && !Passes(target, item) {
        state := Evaluating;
      } else if target.independentEvaluations > 1 && |Evaluators(recent)| < target.independentEvaluations {
        state := Evaluating;
      } else {
        state := Converged;
      }
      return Accepted(state);
    }
  }

  // ---------------------------------------------------------------- runs

  datatype Event = Mutation | Offered(evaluation: Evaluation)

  function Step(t: Target, e: Engine, event: Event): Engine {
    match event case Mutation => Mutate(e) case Offered(v) => Offer(t, e, v)
  }

  function Run(t: Target, events: seq<Event>): Engine {
    if events == [] then Initial() else Step(t, Run(t, events[..|events| - 1]), events[|events| - 1])
  }

  /** History never goes back to an earlier mutation, and never runs ahead of the counter. */
  ghost predicate Ordered(e: Engine) {
    && (forall i, j :: 0 <= i <= j < |e.history| ==> e.history[i].mutationSequence <= e.history[j].mutationSequence)
    && (forall i :: 0 <= i < |e.history| ==> e.history[i].mutationSequence <= e.sequence)
  }

  lemma {:induction false} RunsAreOrdered(t: Target, events: seq<Event>)
    ensures Ordered(Run(t, events))
  {
    hide Decide;
    if events != [] {
      RunsAreOrdered(t, events[..|events| - 1]);
    }
  }

  ghost function Mutations(events: seq<Event>): set<int> { set i | 0 <= i < |events| && events[i].Mutation? }

  lemma MutationsGrow(front: seq<Event>, last: Event)
    ensures Mutations(front + [last]) == if last.Mutation? then Mutations(front) + {|front|} else Mutations(front)
  {
    var events := front + [last];
    assert events[|front|] == last && forall i :: 0 <= i < |front| ==> events[i] == front[i];
  }

  /** The sequence is the number of mutations so far. */
  lemma {:induction false} SequenceCountsMutations(t: Target, events: seq<Event>)
    ensures Run(t, events).sequence == |Mutations(events)|
  {
    hide Decide;
    if events == [] {
      assert Mutations(events) == {};
    } else {
      var front, last := events[..|events| - 1], events[|events| - 1];
      SequenceCountsMutations(t, front);
      MutationsGrow(front, last);
      assert events == front + [last] && |front| !in Mutations(front);
      hide Mutations;
    }
  }

  /** What is recorded was offered, with the number of mutations before it. */
  lemma {:induction false} RecordedAtItsMutation(t: Target, events: seq<Event>, v: Evaluation)
    requires v in Run(t, events).history
    ensures exists k :: 0 <= k < |events| && events[k] == Offered(v) && v.mutationSequence == |Mutations(events[..k])|
  {
    hide Decide, Mutations;
    var front, last := events[..|events| - 1], events[|events| - 1];
    if v in Run(t, front).history {
      RecordedAtItsMutation(t, front, v);
      var k :| 0 <= k < |front| && front[k] == Offered(v) && v.mutationSequence == |Mutations(front[..k])|;
      assert events[..k] == front[..k] && events[k] == front[k];
    } else {
      SequenceCountsMutations(t, front);
      assert last == Offered(v) && events[..|front|] == front;
    }
  }

  /** In an ordered history the fresh evaluations are exactly a suffix, read backwards. */
  lemma {:induction false} FreshIsSuffix(history: seq<Evaluation>, sequence: int)
    requires Ordered(Engine(NotEvaluated, history, sequence))
    ensures var newest := FreshFirst(history, sequence);
            && |newest| <= |history|
            && (forall i :: 0 <= i < |newest| ==> newest[i] == history[|history| - 1 - i])
            && (forall i :: 0 <= i < |history| - |newest| ==> history[i].mutationSequence < sequence)
  {
    if history != [] {
      var front := history[..|history| - 1];
      FreshIsSuffix(front, sequence);
      if history[|history| - 1].mutationSequence < sequence {
        if FreshFirst(front, sequence) != [] {
          FreshAreFresh(front, sequence, 0);
        }
      }
    }
  }

  /** What a release stands on, said without the engine: the tail of the history alone. */
  ghost predicate Justified(t: Target, history: seq<Evaluation>, sequence: int) {
    var n := Required(t);
    && |history| >= n
    && (forall v :: v in Last(history, n) ==> v.mutationSequence == sequence && Passes(t, v))
    && (t.independentEvaluations > 1 ==> |Evaluators(Last(history, n))| >= t.independentEvaluations)
  }

  lemma SameElements(xs: seq<Evaluation>, ys: seq<Evaluation>)
    requires |xs| == |ys| && forall i :: 0 <= i < |xs| ==> xs[i] == ys[|ys| - 1 - i]
    ensures forall v :: v in xs <==> v in ys
    ensures Evaluators(xs) == Evaluators(ys)
  {
    forall v
      ensures v in xs <==> v in ys
    {
      if v in ys {
        var i :| 0 <= i < |ys| && ys[i] == v;
        assert xs[|ys| - 1 - i] == v;
      }
    }
  }

  lemma RequiredIsPositive(t: Target)
    requires ValidTarget(t)
    ensures Required(t) >= 1
  {
  }

  lemma EnoughFresh(history: seq<Evaluation>, sequence: int, n: nat)
    requires Ordered(Engine(NotEvaluated, history, sequence)) && 1 <= n <= |FreshFirst(history, sequence)|
    ensures var recent, tail := FirstN(FreshFirst(history, sequence), n), Last(history, n);
            && |recent| == n <= |history| && (forall v :: v in recent <==> v in tail)
            && Evaluators(recent) == Evaluators(tail)
            && (forall v :: v in tail ==> v.mutationSequence == sequence)
            && history[|history| - 1] in tail
  {
    hide FreshFirst, Ordered, Evaluators;
    var newest, tail := FreshFirst(history, sequence), Last(history, n);
    FreshIsSuffix(history, sequence);
    SameElements(FirstN(newest, n), tail);
    assert tail[n - 1] == history[|history| - 1];
    forall v | v in tail
      ensures v.mutationSequence == sequence
    {
      var i :| 0 <= i < |tail| && tail[i] == v;
      assert newest[n - 1 - i] == v;
      FreshAreFresh(history, sequence, n - 1 - i);
    }
  }

  lemma TooFewFresh(history: seq<Evaluation>, sequence: int, n: nat)
    requires Ordered(Engine(NotEvaluated, history, sequence)) && |FreshFirst(history, sequence)| < n
    ensures |history| >= n ==> exists v :: v in Last(history, n) && v.mutationSequence != sequence
  {
    hide FreshFirst, Ordered;
    var newest := FreshFirst(history, sequence);
    FreshIsSuffix(history, sequence);
    if |history| >= n {
      var stale := history[|history| - 1 - |newest|];
      assert Last(history, n)[n - 1 - |newest|] == stale && stale.mutationSequence < sequence;
    }
  }

  /** Convergence is decided by the tail of the history and by nothing else. */
  lemma ConvergedIffJustified(t: Target, history: seq<Evaluation>, sequence: int)
    requires ValidTarget(t) && history != [] && Ordered(Engine(NotEvaluated, history, sequence))
    ensures Decide(t, history, sequence) == Converged <==> Justified(t, history, sequence)
  {
    hide Passes, Plateau, Evaluators, FreshFirst, Required, Ordered, Last;
    RequiredIsPositive(t);
    var n, newest := Required(t), FreshFirst(history, sequence);
    if |newest| >= n {
      EnoughFresh(history, sequence, n);
    } else {
      TooFewFresh(history, sequence, n);
    }
  }

  lemma {:induction false} FreshAreFresh(history: seq<Evaluation>, sequence: int, i: nat)
    requires i < |FreshFirst(history, sequence)|
    ensures FreshFirst(history, sequence)[i].mutationSequence == sequence
  {
    var k := if history[|history| - 1].mutationSequence == sequence then 1 else 0;
    if i >= k {
      FreshAreFresh(history[..|history| - 1], sequence, i - k);
    }
  }

  /** In every reachable state a release is possible only on a justified history of the current mutation. */
  lemma {:induction false} ReleaseIsJustified(t: Target, events: seq<Event>, unresolved: nat, uncertain: nat)
    requires ValidTarget(t) && MayRelease(Run(t, events), unresolved, uncertain)
    ensures Justified(t, Run(t, events).history, Run(t, events).sequence)
    ensures unresolved == 0 && uncertain == 0
  {
    hide Decide, Justified;
    var before := Run(t, events[..|events| - 1]);
    RunsAreOrdered(t, events);
    ConvergedIffJustified(t, Run(t, events).history, Run(t, events).sequence);
  }

  /** A mutation, a stale or an uncovered evaluation withdraws any release; accepting decides it afresh. */
  lemma ReleaseIsRevoked(t: Target, events: seq<Event>, event: Event)
    requires ValidTarget(t)
    ensures var before, after := Run(t, events), Run(t, events + [event]);
            MayRelease(after, 0, 0) <==>
              event.Offered? && Verdict(t, before, event.evaluation).Accepted?
              && Justified(t, before.history + [event.evaluation], before.sequence)
  {
    hide Decide, Justified;
    assert (events + [event])[..|events|] == events;
    RunsAreOrdered(t, events + [event]);
    if event.Offered? && Verdict(t, Run(t, events), event.evaluation).Accepted? {
      ConvergedIffJustified(t, Run(t, events + [event]).history, Run(t, events + [event]).sequence);
    }
  }

  // ---------------------------------------------------------------- what a verdict means, field by field

  /** The last score given for `id` reaches `minimum`. */
  ghost predicate LastScoreReaches(scores: seq<Score>, id: string, minimum: real) {
    exists k :: 0 <= k < |scores| && scores[k].dimensionId == id && scores[k].score >= minimum
                && forall m :: k < m < |scores| ==> scores[m].dimensionId != id
  }

  /** All that a target asks of one evaluation. */
  ghost predicate MeetsTarget(t: Target, v: Evaluation) {
    && v.targetId == t.id
    && v.overallScore >= t.minimumOverallScore
    && (forall gate :: gate in t.hardGates ==> gate in v.hardGateResults && v.hardGateResults[gate] == true)
    && (forall d :: d in t.dimensions ==> LastScoreReaches(v.scores, d.id, d.minimumScore))
  }

  /** The evaluation at `i` is among the last ones, as many as a release takes. */
  predicate Counts(t: Target, history: seq<Evaluation>, i: int) {
    0 <= i < |history| && (|history| - i <= t.independentEvaluations || |history| - i <= t.stableSuccessfulEvaluations)
  }

  /** Who independently made the evaluations that count. */
  ghost function Judges(t: Target, history: seq<Evaluation>): set<string> {
    set i | 0 <= i < |history| && Counts(t, history, i) && history[i].independent :: history[i].evaluatorId
  }

  /** Enough evaluations of the current mutation meet the target, from enough independent evaluators. */
  ghost predicate QualityShown(t: Target, history: seq<Evaluation>, sequence: int) {
    && |history| >= t.independentEvaluations && |history| >= t.stableSuccessfulEvaluations
    && (forall i :: Counts(t, history, i) ==> history[i].mutationSequence == sequence && MeetsTarget(t, history[i]))
    && (t.independentEvaluations > 1 ==> |Judges(t, history)| >= t.independentEvaluations)
  }

  lemma {:induction false} ReachesTheLastScore(scores: seq<Score>, id: string, minimum: real)
    ensures Reaches(scores, id, minimum) <==> LastScoreReaches(scores, id, minimum)
  {
    if scores != [] {
      var front, last := scores[..|scores| - 1], scores[|scores| - 1];
      ReachesTheLastScore(front, id, minimum);
      if last.dimensionId != id && LastScoreReaches(front, id, minimum) {
        var k :| 0 <= k < |front| && front[k].dimensionId == id && front[k].score >= minimum
                 && forall m :: k < m < |front| ==> front[m].dimensionId != id;
        assert scores[k] == front[k];
      }
    }
  }

  /** An evaluation passes exactly if it meets the target in every field. */
  lemma PassingIsMeeting(t: Target, v: Evaluation)
    ensures Passes(t, v) <==> MeetsTarget(t, v)
  {
    hide Reaches, LastScoreReaches;
    forall d | d in t.dimensions
      ensures Reaches(v.scores, d.id, d.minimumScore) <==> LastScoreReaches(v.scores, d.id, d.minimumScore)
    {
      ReachesTheLastScore(v.scores, d.id, d.minimumScore);
    }
  }

  lemma LastCounts(t: Target, history: seq<Evaluation>, v: Evaluation)
    requires |history| >= Required(t)
    ensures v in Last(history, Required(t)) <==> exists i :: Counts(t, history, i) && history[i] == v
  {
    var n, tail := Required(t), Last(history, Required(t));
    if v in tail {
      var i :| 0 <= i < n && tail[i] == v;
      assert Counts(t, history, |history| - n + i) && history[|history| - n + i] == v;
    }
    if i :| Counts(t, history, i) && history[i] == v {
      assert tail[i - (|history| - n)] == v;
    }
  }

  lemma JudgesAreEvaluators(t: Target, history: seq<Evaluation>)
    requires |history| >= Required(t)
    ensures Judges(t, history) == Evaluators(Last(history, Required(t)))
  {
    hide Last, Required, Counts;
    var tail := Last(history, Required(t));
    forall id
      ensures id in Judges(t, history) <==> id in Evaluators(tail)
    {
      if id in Judges(t, history) {
        var i :| 0 <= i < |history| && Counts(t, history, i) && history[i].independent && history[i].evaluatorId == id;
        LastCounts(t, history, history[i]);
      }
      if id in Evaluators(tail) {
        var v :| v in tail && v.independent && v.evaluatorId == id;
        LastCounts(t, history, v);
        CountsInside(t, history);
      }
    }
  }

  lemma CountsInside(t: Target, history: seq<Evaluation>)
    ensures forall i :: Counts(t, history, i) ==> 0 <= i < |history|
  {
  }

  /** A history justifies a release exactly if it shows the quality the target asks for. */
  lemma JustifiedIsShown(t: Target, history: seq<Evaluation>, sequence: int)
    ensures Justified(t, history, sequence) <==> QualityShown(t, history, sequence)
  {
    hide Passes, MeetsTarget, Last, Counts, Judges, Evaluators;
    if |history| >= Required(t) {
      JudgesAreEvaluators(t, history);
      CountsInside(t, history);
      forall v
        ensures Passes(t, v) <==> MeetsTarget(t, v)
        ensures v in Last(history, Required(t)) <==> exists i :: Counts(t, history, i) && history[i] == v
      {
        PassingIsMeeting(t, v);
        LastCounts(t, history, v);
      }
    }
  }

  /**
   * In every reachable state, a release is possible only with no open finding and on evaluations of the current
   * mutation that meet the target in every field, from enough independent evaluators.
   */
  lemma ReleaseMeansQuality(t: Target, events: seq<Event>, unresolved: nat, uncertain: nat)
    requires ValidTarget(t) && MayRelease(Run(t, events), unresolved, uncertain)
    ensures QualityShown(t, Run(t, events).history, Run(t, events).sequence)
    ensures forall v :: v in Run(t, events).history ==> v.artifacts == t.artifactIds
    ensures unresolved == 0 && uncertain == 0
  {
    hide QualityShown, Justified, Decide, Passes;
    ReleaseIsJustified(t, events, unresolved, uncertain);
    JustifiedIsShown(t, Run(t, events).history, Run(t, events).sequence);
    EverythingCovers(t, events);
  }

  lemma {:induction false} EverythingCovers(t: Target, events: seq<Event>)
    ensures forall v :: v in Run(t, events).history ==> v.artifacts == t.artifactIds
  {
    hide Decide;
    if events != [] {
      EverythingCovers(t, events[..|events| - 1]);
    }
  }

  lemma {:induction false} ExtremesBound(history: seq<Evaluation>)
    requires history != []
    ensures forall i :: 0 <= i < |history| ==> Lowest(history) <= history[i].overallScore <= Highest(history)
    ensures exists i :: 0 <= i < |history| && history[i].overallScore == Highest(history)
    ensures exists i :: 0 <= i < |history| && history[i].overallScore == Lowest(history)
  {
    if |history| > 1 {
      ExtremesBound(history[1..]);
      var i :| 0 <= i < |history[1..]| && history[1..][i].overallScore == Highest(history[1..]);
      var j :| 0 <= j < |history[1..]| && history[1..][j].overallScore == Lowest(history[1..]);
      assert history[i + 1] == history[1..][i] && history[j + 1] == history[1..][j];
      assert forall k :: 1 <= k < |history| ==> history[k] == history[1..][k - 1];
    } else {
      assert history[0].overallScore == Highest(history) == Lowest(history);
    }
  }

  /** The scores of a full window lie less than the delta apart. */
  ghost predicate Flat(t: Target, history: seq<Evaluation>) {
    && |history| >= t.plateauWindow
    && forall i, j :: |history| - t.plateauWindow <= i < |history| && |history| - t.plateauWindow <= j < |history| ==>
         history[i].overallScore - history[j].overallScore < t.plateauDelta
  }

  lemma PlateauIsFlat(t: Target, history: seq<Evaluation>)
    requires ValidTarget(t) && history != []
    ensures Plateau(t, history) <==> Flat(t, history)
  {
    hide Highest, Lowest;
    if |history| >= t.plateauWindow {
      var recent := history[|history| - t.plateauWindow..];
      assert Last(history, t.plateauWindow) == recent;
      ExtremesBound(recent);
      var i :| 0 <= i < |recent| && recent[i].overallScore == Highest(recent);
      var j :| 0 <= j < |recent| && recent[j].overallScore == Lowest(recent);
      assert history[|history| - t.plateauWindow + i] == recent[i];
      assert history[|history| - t.plateauWindow + j] == recent[j];
      assert forall k :: |history| - t.plateauWindow <= k < |history| ==>
          history[k] == recent[k - (|history| - t.plateauWindow)];
    }
  }

  /**
   * The answer to an evaluation, in its own fields: refused when stale or not covering the artifacts; otherwise blocked
   * or below target exactly if it misses the target somewhere, blocked exactly if its window is flat besides, and
   * converged exactly if the history now shows the quality asked for.
   */
  lemma AnswerMeans(t: Target, events: seq<Event>, v: Evaluation)
    requires ValidTarget(t)
    ensures var e := Run(t, events);
            var answer := Verdict(t, e, v);
            && (answer == Stale <==> v.mutationSequence != e.sequence)
            && (answer == Uncovered <==> v.mutationSequence == e.sequence && v.artifacts != t.artifactIds)
            && (answer.Accepted? ==>
                  && (answer.state in {BelowTarget, Blocked} <==> !MeetsTarget(t, v))
                  && (answer.state == Blocked <==> !MeetsTarget(t, v) && Flat(t, e.history + [v]))
                  && (answer.state == Converged <==> QualityShown(t, e.history + [v], e.sequence))
                  && answer.state in {BelowTarget, Blocked, Evaluating, Converged})
  {
    hide Passes, MeetsTarget, Plateau, Flat, QualityShown, Justified, FreshFirst, Required, Evaluators;
    var e := Run(t, events);
    if Verdict(t, e, v).Accepted? {
      var history := e.history + [v];
      PassingIsMeeting(t, v);
      PlateauIsFlat(t, history);
      RunsAreOrdered(t, events);
      assert Ordered(Engine(NotEvaluated, history, e.sequence));
      ConvergedIffJustified(t, history, e.sequence);
      JustifiedIsShown(t, history, e.sequence);
    }
  }

  // ---------------------------------------------------------------- plateaus

  /** Every accepted evaluation of the run failed, its score in range, and never fell below the one before. */
  ghost predicate Climbing(t: Target, history: seq<Evaluation>) {
    && (forall i :: 0 <= i < |history| ==> !Passes(t, history[i]) && 0.0 <= history[i].overallScore <= 1.0)
    && (forall i, j :: 0 <= i <= j < |history| ==> history[i].overallScore <= history[j].overallScore)
  }

  ghost predicate NeverBlocked(t: Target, events: seq<Event>) {
    forall n :: 0 <= n <= |events| ==> Run(t, events[..n]).state != Blocked
  }

  lemma {:induction false} ExtremesOfClimb(history: seq<Evaluation>)
    requires history != []
    requires forall i, j :: 0 <= i <= j < |history| ==> history[i].overallScore <= history[j].overallScore
    ensures Highest(history) == history[|history| - 1].overallScore
    ensures Lowest(history) == history[0].overallScore
  {
    if |history| > 1 {
      ExtremesOfClimb(history[1..]);
    }
  }

  lemma {:induction false} HighestIsNotLower(history: seq<Evaluation>)
    requires history != []
    ensures Lowest(history) <= Highest(history)
  {
    if |history| > 1 {
      HighestIsNotLower(history[1..]);
    }
  }

  /** Without plateau, one window further the score has risen by the delta. */
  ghost predicate Rising(t: Target, history: seq<Evaluation>)
    requires ValidTarget(t)
  {
    forall i :: t.plateauWindow - 1 <= i < |history| ==>
      history[i].overallScore - history[i - (t.plateauWindow - 1)].overallScore >= t.plateauDelta
  }

  lemma UnblockedStepRises(t: Target, history: seq<Evaluation>, sequence: int)
    requires ValidTarget(t) && |history| >= t.plateauWindow && Climbing(t, history)
    ensures Decide(t, history, sequence) != Blocked <==>
              history[|history| - 1].overallScore - history[|history| - t.plateauWindow].overallScore >= t.plateauDelta
  {
    hide Passes, FreshFirst, Highest, Lowest;
    var recent := Last(history, t.plateauWindow);
    ExtremesOfClimb(recent);
  }

  lemma ClimbingPrefix(t: Target, history: seq<Evaluation>, v: Evaluation)
    requires Climbing(t, history + [v])
    ensures Climbing(t, history)
  {
    hide Passes;
    assert forall i :: 0 <= i < |history| ==> (history + [v])[i] == history[i];
  }

  lemma {:induction false} UnblockedRunsRise(t: Target, events: seq<Event>)
    requires ValidTarget(t) && NeverBlocked(t, events) && Climbing(t, Run(t, events).history)
    ensures Rising(t, Run(t, events).history)
  {
    hide Passes, Decide, Climbing;
    if events != [] {
      var front := events[..|events| - 1];
      assert forall n :: 0 <= n <= |front| ==> front[..n] == events[..n];
      assert events[..|events|] == events;
      var before, after := Run(t, front), Run(t, events);
      if after.history == before.history {
        UnblockedRunsRise(t, front);
      } else {
        var v := events[|events| - 1].evaluation;
        ClimbingPrefix(t, before.history, v);
        UnblockedRunsRise(t, front);
        if |after.history| >= t.plateauWindow {
          UnblockedStepRises(t, after.history, after.sequence);
        }
      }
    }
  }

  /** `k` rises of `delta`, and `k` strides of `w` places. */
  function Rise(k: nat, delta: real): real { if k == 0 then 0.0 else Rise(k - 1, delta) + delta }

  function Stride(k: nat, w: nat): nat { if k == 0 then 0 else Stride(k - 1, w) + w }

  lemma {:induction false} RiseIsProduct(k: nat, delta: real)
    ensures Rise(k, delta) == k as real * delta
  {
    if k > 0 {
      RiseIsProduct(k - 1, delta);
      assert (k - 1) as real + 1.0 == k as real;
      Distribute((k - 1) as real, delta);
    }
  }

  lemma Distribute(a: real, b: real)
    ensures (a + 1.0) * b == a * b + b
  {
  }

  lemma {:induction false} StrideIsProduct(k: nat, w: nat)
    ensures Stride(k, w) == k * w
  {
    if k > 0 {
      StrideIsProduct(k - 1, w);
      assert (k - 1) * w + w == k * w;
    }
  }

  lemma {:induction false} RiseAccumulates(t: Target, history: seq<Evaluation>, k: nat)
    requires ValidTarget(t) && Climbing(t, history) && Rising(t, history)
    requires Stride(k, t.plateauWindow - 1) < |history|
    ensures history[Stride(k, t.plateauWindow - 1)].overallScore >= Rise(k, t.plateauDelta)
  {
    hide Passes;
    if k > 0 {
      RiseAccumulates(t, history, k - 1);
      var i := Stride(k, t.plateauWindow - 1);
      assert i - (t.plateauWindow - 1) == Stride(k - 1, t.plateauWindow - 1);
    }
  }

  /** How many rises of `delta` stay within the score range. */
  function Levels(delta: real): int
    requires delta > 0.0
  {
    (1.0 / delta).Floor
  }

  function PlateauBound(t: Target): int
    requires t.plateauDelta > 0.0
  {
    (Levels(t.plateauDelta) + 1) * (t.plateauWindow - 1)
  }

  lemma Reciprocal(delta: real)
    requires delta > 0.0
    ensures (1.0 / delta) * delta == 1.0
  {
  }

  lemma ScaleOrder(a: real, b: real, c: real)
    requires a <= b && c > 0.0
    ensures a * c <= b * c
  {
    assert (b - a) * c >= 0.0;
  }

  lemma ScaleStrict(a: real, b: real, c: real)
    requires a < b && c > 0.0
    ensures a * c < b * c
  {
    assert (b - a) * c > 0.0;
  }

  lemma LevelsFitTheRange(delta: real)
    requires 0.0 < delta <= 1.0
    ensures Levels(delta) >= 0
    ensures Rise(Levels(delta), delta) <= 1.0 < Rise(Levels(delta) + 1, delta)
  {
    hide Rise;
    var q := 1.0 / delta;
    Reciprocal(delta);
    if q < 1.0 {
      ScaleStrict(q, 1.0, delta);
    }
    var k := q.Floor;
    assert k as real <= q < (k + 1) as real;
    RiseIsProduct(k, delta);
    RiseIsProduct(k + 1, delta);
    ScaleOrder(k as real, q, delta);
    ScaleStrict(q, (k + 1) as real, delta);
    assert Rise(k, delta) <= q * delta == 1.0;
    assert Rise(k + 1, delta) > 1.0;
  }

  /** An engine that never blocks on climbing failures has accepted no more than the plateau bound. */
  lemma ClimbingRunsAreBounded(t: Target, events: seq<Event>)
    requires ValidTarget(t) && t.plateauDelta > 0.0
    requires NeverBlocked(t, events) && Climbing(t, Run(t, events).history)
    ensures |Run(t, events).history| <= PlateauBound(t)
  {
    hide Passes, Rise, Levels, NeverBlocked, Run;
    var history := Run(t, events).history;
    LevelsFitTheRange(t.plateauDelta);
    var k := Levels(t.plateauDelta) + 1;
    StrideIsProduct(k, t.plateauWindow - 1);
    UnblockedRunsRise(t, events);
    if |history| > Stride(k, t.plateauWindow - 1) {
      RiseAccumulates(t, history, k);
    }
  }

  /** With a zero delta no run of any kind blocks. */
  lemma {:induction false} ZeroDeltaNeverBlocks(t: Target, events: seq<Event>)
    requires ValidTarget(t) && t.plateauDelta == 0.0
    ensures Run(t, events).state != Blocked
  {
    hide Passes, FreshFirst;
    if events != [] {
      ZeroDeltaNeverBlocks(t, events[..|events| - 1]);
      var history := Run(t, events).history;
      if history != [] && Last(history, t.plateauWindow) != [] {
        HighestIsNotLower(Last(history, t.plateauWindow));
      }
    }
  }

  // ---------------------------------------------------------------- the bound is attained

  /** The stair on which place `i` lies when every stair is `w` places wide. */
  function Stair(i: nat, w: nat): nat
    requires w > 0
  {
    if i < w then 0 else Stair(i - w, w) + 1
  }

  lemma {:induction false} StairOrder(i: nat, j: nat, w: nat)
    requires i <= j && w > 0
    ensures Stair(i, w) <= Stair(j, w)
  {
    if i >= w {
      StairOrder(i - w, j - w, w);
    }
  }

  lemma {:induction false} StairBelow(i: nat, w: nat, k: nat)
    requires w > 0 && i < Stride(k + 1, w)
    ensures Stair(i, w) <= k
    decreases k
  {
    if i >= w {
      assert k > 0 by { assert Stride(1, w) == w; }
      StairBelow(i - w, w, k - 1);
    }
  }

  lemma {:induction false} RiseOrder(k: nat, m: nat, delta: real)
    requires k <= m && delta >= 0.0
    ensures 0.0 <= Rise(k, delta) <= Rise(m, delta)
    decreases m
  {
    if k < m {
      RiseOrder(k, m - 1, delta);
    } else if k > 0 {
      RiseOrder(k - 1, k - 1, delta);
    }
  }

  function Failing(t: Target, score: real): Evaluation {
    Evaluation(t.id + "x", t.artifactIds, [], map[], "", false, score, 0)
  }

  lemma FailingFails(t: Target, score: real)
    ensures !Passes(t, Failing(t, score))
  {
    assert |t.id + "x"| != |t.id|;
  }

  function StairScore(t: Target, i: nat): real
    requires ValidTarget(t)
  {
    Rise(Stair(i, t.plateauWindow - 1), t.plateauDelta)
  }

  function Staircase(t: Target, n: nat): seq<Event>
    requires ValidTarget(t)
  {
    if n == 0 then [] else Staircase(t, n - 1) + [Offered(Failing(t, StairScore(t, n - 1)))]
  }

  lemma {:induction false} StaircaseRun(t: Target, n: nat)
    requires ValidTarget(t)
    ensures var e := Run(t, Staircase(t, n));
            && |Staircase(t, n)| == n && e.sequence == 0 && |e.history| == n
            && (n > 0 ==> e.state == Decide(t, e.history, 0))
            && (forall i :: 0 <= i < n ==> e.history[i] == Failing(t, StairScore(t, i)))
  {
    hide Decide, StairScore;
    if n > 0 {
      StaircaseRun(t, n - 1);
      assert Staircase(t, n)[..n - 1] == Staircase(t, n - 1);
    }
  }

  lemma StairScoreInRange(t: Target, i: nat)
    requires ValidTarget(t) && t.plateauDelta > 0.0 && i < PlateauBound(t)
    ensures 0.0 <= StairScore(t, i) <= 1.0
  {
    hide Levels, Rise, Stair, Stride;
    var top := Levels(t.plateauDelta);
    LevelsFitTheRange(t.plateauDelta);
    StrideIsProduct(top + 1, t.plateauWindow - 1);
    StairBelow(i, t.plateauWindow - 1, top);
    RiseOrder(Stair(i, t.plateauWindow - 1), top, t.plateauDelta);
  }

  lemma StaircaseClimbs(t: Target, n: nat)
    requires ValidTarget(t) && t.plateauDelta > 0.0 && n <= PlateauBound(t)
    ensures Climbing(t, Run(t, Staircase(t, n)).history)
  {
    hide Passes, Run, Staircase, PlateauBound, Rise, Stair;
    StaircaseRun(t, n);
    var history := Run(t, Staircase(t, n)).history;
    forall i, j | 0 <= i <= j < |history|
      ensures history[i].overallScore <= history[j].overallScore
    {
      StairOrder(i, j, t.plateauWindow - 1);
      RiseOrder(Stair(i, t.plateauWindow - 1), Stair(j, t.plateauWindow - 1), t.plateauDelta);
    }
    forall i | 0 <= i < |history|
      ensures !Passes(t, history[i]) && 0.0 <= history[i].overallScore <= 1.0
    {
      FailingFails(t, StairScore(t, i));
      StairScoreInRange(t, i);
    }
  }

  lemma StaircaseNeverPlateaus(t: Target, n: nat)
    requires ValidTarget(t) && t.plateauDelta > 0.0 && n <= PlateauBound(t)
    ensures Run(t, Staircase(t, n)).state != Blocked
  {
    hide Passes, Run, PlateauBound, Climbing, FreshFirst;
    StaircaseRun(t, n);
    StaircaseClimbs(t, n);
    var history := Run(t, Staircase(t, n)).history;
    if n >= t.plateauWindow {
      UnblockedStepRises(t, history, 0);
      assert StairScore(t, n - 1) == StairScore(t, n - t.plateauWindow) + t.plateauDelta;
    } else if n == 0 {
      assert Run(t, []).state == NotEvaluated by { RunOfNothing(t); }
    }
  }

  lemma RunOfNothing(t: Target)
    ensures Run(t, []) == Initial()
  {
  }

  lemma {:induction false} StaircasePrefix(t: Target, n: nat, k: nat)
    requires ValidTarget(t) && k <= n
    ensures |Staircase(t, n)| == n && Staircase(t, n)[..k] == Staircase(t, k)
  {
    if k < n {
      StaircasePrefix(t, n - 1, k);
    } else if n > 0 {
      StaircasePrefix(t, n - 1, n - 1);
    }
  }

  /** The bound is exact: a climbing run of that very length never blocks. */
  lemma PlateauBoundIsAttained(t: Target)
    requires ValidTarget(t) && t.plateauDelta > 0.0
    ensures PlateauBound(t) >= 0
    ensures var events := Staircase(t, PlateauBound(t));
            && |Run(t, events).history| == PlateauBound(t)
            && Climbing(t, Run(t, events).history)
            && NeverBlocked(t, events)
  {
    hide Passes, Run, Climbing, Staircase;
    LevelsFitTheRange(t.plateauDelta);
    assert PlateauBound(t) >= 0 by { Positive(Levels(t.plateauDelta) + 1, t.plateauWindow - 1); }
    var n := PlateauBound(t);
    StaircaseRun(t, n);
    StaircaseClimbs(t, n);
    forall k | 0 <= k <= |Staircase(t, n)|
      ensures Run(t, Staircase(t, n)[..k]).state != Blocked
    {
      StaircasePrefix(t, n, k);
      StaircaseNeverPlateaus(t, k);
    }
  }

  lemma Positive(a: nat, b: nat)
    ensures a * b >= 0
  {
  }

  // ---------------------------------------------------------------- the watchdog

  datatype Advice = Continue | Retry | Replan

  datatype Attempt = Attempt(fingerprint: string, progress: bool)

  /** Failures of one approach since it last made progress. */
  function Streak(attempts: seq<Attempt>, fingerprint: string): nat {
    if attempts == [] then 0
    else
      var last := attempts[|attempts| - 1];
      if last.fingerprint != fingerprint then Streak(attempts[..|attempts| - 1], fingerprint)
      else if last.progress then 0
      else Streak(attempts[..|attempts| - 1], fingerprint) + 1
  }

  /** The attempts of one approach that were not followed by progress of it, and made none themselves. */
  ghost function Fruitless(attempts: seq<Attempt>, fingerprint: string): set<int> {
    set i | 0 <= i < |attempts| && attempts[i].fingerprint == fingerprint
            && forall j :: i <= j < |attempts| && attempts[j].fingerprint == fingerprint ==> !attempts[j].progress
  }

  lemma FruitlessGrows(front: seq<Attempt>, last: Attempt, fingerprint: string)
    ensures Fruitless(front + [last], fingerprint)
            == if last.fingerprint != fingerprint then Fruitless(front, fingerprint)
               else if last.progress then {}
               else Fruitless(front, fingerprint) + {|front|}
  {
    var attempts := front + [last];
    assert forall i :: 0 <= i < |front| ==> attempts[i] == front[i];
    assert attempts[|front|] == last;
  }

  lemma {:induction false} StreakCountsFruitless(attempts: seq<Attempt>, fingerprint: string)
    ensures Streak(attempts, fingerprint) == |Fruitless(attempts, fingerprint)|
  {
    if attempts == [] {
      assert Fruitless(attempts, fingerprint) == {};
    } else {
      var front, last := attempts[..|attempts| - 1], attempts[|attempts| - 1];
      StreakCountsFruitless(front, fingerprint);
      assert attempts == front + [last];
      FruitlessGrows(front, last, fingerprint);
      assert |front| !in Fruitless(front, fingerprint);
      hide Fruitless;
    }
  }

  class ConvergenceWatchdog {
    const equivalentAttemptLimit: int
    var failures: map<string, nat>
    ghost var attempts: seq<Attempt>

    ghost predicate Valid()
      reads this
    {
      forall f :: (if f in failures then failures[f] else 0) == Streak(attempts, f)
    }

    constructor (limit: int)
      ensures Valid() && attempts == [] && equivalentAttemptLimit == limit
    {
      equivalentAttemptLimit, failures, attempts := limit, map[], [];
    }

    /** Replanning is advised exactly when the unbroken failures of this approach reach the limit. */
    method Record(fingerprint: string, progress: bool) returns (advice: Advice)
      requires Valid()
      modifies this
      ensures Valid() && attempts == old(attempts) + [Attempt(fingerprint, progress)]
      ensures advice == if progress then Continue
                        else if Streak(attempts, fingerprint) >= equivalentAttemptLimit then Replan else Retry
    {
      attempts := attempts + [Attempt(fingerprint, progress)];
      assert attempts[..|attempts| - 1] == old(attempts);
      if progress {
        failures := failures[fingerprint := 0];
        return Continue;
      }
      var count := (if fingerprint in failures then failures[fingerprint] else 0) + 1;
      failures := failures[fingerprint := count];
      advice := if count >= equivalentAttemptLimit then Replan else Retry;
    }
  }
}
