/**
 * Runs of the action loop. The tool surface is fixed at the start of a model turn; every call of the turn is
 * rewritten, validated, checked against that surface, executed, and observed.
 */
module GatedRuns {
  import opened Text
  import opened Workflow

  /** `evaluated` is the set of images in the last accepted visual evaluation. */
  datatype RunState = RunState(coord: State, allowed: set<Tool>, evaluated: set<string>)

  datatype Event = Turn | Call(tool: Tool, raw: Args, receipt: Receipt, ok: bool)

  predicate Enabled(rs: RunState, e: Event) {
    match e
    case Turn => true
    case Call(tool, raw, _, _) =>
      tool in rs.allowed && Validate(rs.coord, tool, Rewrite(rs.coord, tool, raw)) == Accepted
  }

  function Next(base: set<Tool>, rs: RunState, e: Event): RunState {
    match e
    case Turn => rs.(allowed := Permitted(rs.coord, base))
    case Call(tool, raw, r, ok) =>
      rs.(coord := Observe(rs.coord, tool, Rewrite(rs.coord, tool, raw), r, ok),
          evaluated := if ok && tool == InspectImages && r.status == EvaluatedImages then Evaluated(r)
                       else rs.evaluated)
  }

  function After(base: set<Tool>, rs: RunState, es: seq<Event>): RunState
    decreases |es|
  {
    if es == [] then rs else After(base, Next(base, rs, es[0]), es[1..])
  }

  /** Every event is enabled when it happens. */
  predicate Gated(base: set<Tool>, rs: RunState, es: seq<Event>)
    decreases |es|
  {
    es == [] || (Enabled(rs, es[0]) && Gated(base, Next(base, rs, es[0]), es[1..]))
  }

  /** A gated run that goes no further than its first Complete. */
  predicate Pending(base: set<Tool>, rs: RunState, es: seq<Event>)
    decreases |es|
  {
    es == [] || (PhaseOf(rs.coord) != Complete && Enabled(rs, es[0]) && Pending(base, Next(base, rs, es[0]), es[1..]))
  }

  /** Between turns nothing is permitted until the next turn fixes a surface. */
  function Between(s: State, evaluated: set<string>): RunState { RunState(s, {}, evaluated) }

  function Begin(contract: Contract): RunState { Between(Fresh(contract), {}) }

  // ---------------------------------------------------------------- what publication proves

  /** Runtime, browser and capture evidence is complete. */
  predicate Evidence(s: State) {
    && (NeedsRuntime(s) ==> s.runtime.runtimeReady)
    && (s.contract.requireBrowser ==> s.browser.browserOpened && s.browser.browserInspected)
    && |s.gallery.capturedPaths| >= s.contract.screenshotCount
  }

  /** Everything the request demanded before its output may exist. */
  predicate Earned(s: State) {
    && Evidence(s)
    && (s.contract.requireVisualReview ==> s.review.visualReviewed && s.review.selectedPaths != [])
  }

  predicate Lifecycle(tool: Tool) { tool.PollProcess? || tool.ReadProcessOutput? || tool.StopProcess? }

  /** Tools that leave runtime, browser and capture evidence alone. */
  predicate Late(tool: Tool) { Lifecycle(tool) || tool.PublishOutput? || tool.InspectImages? }

  /** A surface that holds a late-phase tool holds nothing that could undo the evidence for it. */
  ghost predicate OnlyLate(tools: set<Tool>) { forall tool :: tool in tools ==> Late(tool) }

  ghost predicate SurfaceInv(rs: RunState) {
    PublishOutput in rs.allowed || InspectImages in rs.allowed ==>
      Evidence(rs.coord) && OnlyLate(rs.allowed)
  }

  lemma LateCallKeepsEvidence(s: State, tool: Tool, args: Args, r: Receipt, ok: bool)
    requires Late(tool)
    ensures var t := Observe(s, tool, args, r, ok);
            && t == s.(failure := t.failure, review := t.review)
            && (tool != InspectImages ==> t.review == s.review.(outputReady := t.review.outputReady))
            && (tool != PublishOutput ==> t.review.outputReady == s.review.outputReady)
  {
    if ok {
      match tool {
        case PollProcess =>
        case ReadProcessOutput =>
        case StopProcess =>
        case PublishOutput =>
        case InspectImages =>
      }
    }
  }

  lemma ContractIsFixed(s: State, tool: Tool, args: Args, r: Receipt, ok: bool)
    ensures Observe(s, tool, args, r, ok).contract == s.contract
    ensures tool != PublishOutput ==> Observe(s, tool, args, r, ok).review.outputReady == s.review.outputReady
    ensures tool != InspectImages ==>
      && Observe(s, tool, args, r, ok).review.visualReviewed == s.review.visualReviewed
      && Observe(s, tool, args, r, ok).review.selectedPaths == s.review.selectedPaths
  {
  }

  lemma StepKeepsSurface(base: set<Tool>, rs: RunState, e: Event)
    requires SurfaceInv(rs) && PhaseOf(rs.coord) != Complete && Enabled(rs, e)
    ensures SurfaceInv(Next(base, rs, e))
  {
    hide Observe, Validate, Rewrite, Permitted, PhaseOf;
    match e {
      case Turn => TurnFixesSurface(base, rs);
      case Call(tool, raw, r, ok) =>
        if PublishOutput in rs.allowed || InspectImages in rs.allowed {
          LateCallKeepsEvidence(rs.coord, tool, Rewrite(rs.coord, tool, raw), r, ok);
        }
    }
  }

  /** The late phases, and only they, imply complete evidence. */
  lemma PhaseMeansEvidence(s: State)
    requires PhaseOf(s) != Complete
    ensures Evidence(s) <==> PhaseOf(s) == VisualReview || PhaseOf(s) == Publish
  {
    hide StartupCandidates, InspectedStartup;
  }

  lemma LateToolsNeedLatePhases(s: State, base: set<Tool>, tool: Tool)
    requires PhaseOf(s) != Complete && tool in Permitted(s, base)
    ensures tool == PublishOutput || tool == InspectImages ==> PhaseOf(s) == VisualReview || PhaseOf(s) == Publish
    ensures PhaseOf(s) == VisualReview || PhaseOf(s) == Publish ==> Late(tool)
  {
    hide StartRuntimeTools, StartupCandidates, InspectedStartup;
    EarlySurface(s);
  }

  lemma TurnFixesSurface(base: set<Tool>, rs: RunState)
    requires PhaseOf(rs.coord) != Complete
    ensures SurfaceInv(Next(base, rs, Turn))
    ensures Evidence(rs.coord) ==> OnlyLate(Permitted(rs.coord, base))
  {
    hide Permitted, PhaseOf;
    PhaseMeansEvidence(rs.coord);
    forall tool | tool in Permitted(rs.coord, base)
      ensures tool == PublishOutput || tool == InspectImages ==> Evidence(rs.coord)
      ensures Evidence(rs.coord) ==> Late(tool)
    {
      LateToolsNeedLatePhases(rs.coord, base, tool);
    }
  }

  lemma EarlySurface(s: State)
    ensures PublishOutput !in StartRuntimeTools(s) && InspectImages !in StartRuntimeTools(s)
  {
    hide DiagnosisOpen, HasStaticHtml, DependenciesSettled, BrowserStartSpec;
  }

  ghost predicate EarnedInv(rs: RunState) {
    SurfaceInv(rs) && (rs.coord.review.outputReady ==> Earned(rs.coord))
  }

  lemma StepKeepsEarned(base: set<Tool>, rs: RunState, e: Event)
    requires EarnedInv(rs) && PhaseOf(rs.coord) != Complete && Enabled(rs, e)
    ensures EarnedInv(Next(base, rs, e))
  {
    hide Rewrite, Permitted, Observe, StartupCandidates, InspectedStartup;
    StepKeepsSurface(base, rs, e);
    if e.Call? {
      ContractIsFixed(rs.coord, e.tool, Rewrite(rs.coord, e.tool, e.raw), e.receipt, e.ok);
      if e.tool == PublishOutput {
        LateCallKeepsEvidence(rs.coord, e.tool, Rewrite(rs.coord, e.tool, e.raw), e.receipt, e.ok);
      }
    }
  }

  lemma {:induction false} PendingKeepsEarned(base: set<Tool>, rs: RunState, es: seq<Event>)
    requires EarnedInv(rs) && Pending(base, rs, es)
    ensures EarnedInv(After(base, rs, es))
    decreases |es|
  {
    hide Observe, Validate, Rewrite, Permitted, PhaseOf;
    if es != [] {
      StepKeepsEarned(base, rs, es[0]);
      PendingKeepsEarned(base, Next(base, rs, es[0]), es[1..]);
    }
  }

  /**
   * Safety of publication: whatever state an action is started or resumed in, its output exists only once the
   * runtime is ready, the browser opened and inspected, the captures taken and the review done.
   */
  lemma PublicationIsEarned(base: set<Tool>, start: State, evaluated: set<string>, es: seq<Event>)
    requires !start.review.outputReady
    requires Pending(base, Between(start, evaluated), es)
    ensures var end := After(base, Between(start, evaluated), es).coord;
            end.review.outputReady ==> Earned(end)
  {
    hide Observe, Validate, Rewrite, Permitted, PhaseOf;
    PendingKeepsEarned(base, Between(start, evaluated), es);
  }

  // ---------------------------------------------------------------- what a review covers

  ghost predicate AllIn(paths: seq<string>, images: set<string>) { forall path :: path in paths ==> path in images }

  /** Once reviewed, nothing that could add a capture is permitted, and the evaluation covers all captures. */
  ghost predicate CaptureInv(rs: RunState) {
    && SurfaceInv(rs)
    && (rs.coord.review.visualReviewed ==>
          && Evidence(rs.coord)
          && OnlyLate(rs.allowed)
          && AllIn(rs.coord.gallery.capturedPaths, rs.evaluated))
  }

  /** And it covers the selection. */
  ghost predicate ReviewInv(rs: RunState) {
    CaptureInv(rs) && (rs.coord.review.visualReviewed ==> AllIn(rs.coord.review.selectedPaths, rs.evaluated))
  }

  lemma {:induction false} SelectedWereEvaluated(selected: seq<string>, evaluated: set<string>)
    ensures AllIn(SelectedAmong(selected, evaluated), evaluated)
  {
    if selected != [] {
      SelectedWereEvaluated(selected[..|selected| - 1], evaluated);
    }
  }

  lemma ReviewBinds(s: State, args: Args, r: Receipt, evaluated: set<string>)
    requires r.status == EvaluatedImages && evaluated == Evaluated(r)
    ensures var t := Observe(s, InspectImages, args, r, true);
            && t.gallery == s.gallery
            && AllIn(t.review.selectedPaths, evaluated)
            && (t.review.visualReviewed <==> AllIn(t.gallery.capturedPaths, evaluated))
  {
    SelectedWereEvaluated(r.selected, evaluated);
    DedupElements(SelectedAmong(r.selected, evaluated));
  }

  lemma StepKeepsCaptures(base: set<Tool>, rs: RunState, e: Event)
    requires CaptureInv(rs) && PhaseOf(rs.coord) != Complete && Enabled(rs, e)
    ensures CaptureInv(Next(base, rs, e))
  {
    hide Observe, Validate, Rewrite, Permitted, PhaseOf;
    StepKeepsSurface(base, rs, e);
    if e == Turn {
      TurnFixesSurface(base, rs);
    } else {
      var args := Rewrite(rs.coord, e.tool, e.raw);
      if e.tool == InspectImages && e.ok && e.receipt.status == EvaluatedImages {
        LateCallKeepsEvidence(rs.coord, e.tool, args, e.receipt, e.ok);
        ReviewBinds(rs.coord, args, e.receipt, Evaluated(e.receipt));
      } else {
        if rs.coord.review.visualReviewed {
          LateCallKeepsEvidence(rs.coord, e.tool, args, e.receipt, e.ok);
        }
        ReviewOnlyByEvaluation(rs.coord, e.tool, args, e.receipt, e.ok);
      }
    }
  }

  lemma StepKeepsReview(base: set<Tool>, rs: RunState, e: Event)
    requires ReviewInv(rs) && PhaseOf(rs.coord) != Complete && Enabled(rs, e)
    ensures ReviewInv(Next(base, rs, e))
  {
    hide Observe, Validate, Rewrite, Permitted, PhaseOf, CaptureInv, AllIn;
    StepKeepsCaptures(base, rs, e);
    if e.Call? {
      var args := Rewrite(rs.coord, e.tool, e.raw);
      if e.tool == InspectImages && e.ok && e.receipt.status == EvaluatedImages {
        ReviewBinds(rs.coord, args, e.receipt, Evaluated(e.receipt));
      } else {
        ReviewOnlyByEvaluation(rs.coord, e.tool, args, e.receipt, e.ok);
      }
    }
  }

  lemma ReviewOnlyByEvaluation(s: State, tool: Tool, args: Args, r: Receipt, ok: bool)
    requires !(ok && tool == InspectImages && r.status == EvaluatedImages)
    ensures var after := Observe(s, tool, args, r, ok).review;
            after == s.review.(outputReady := after.outputReady)
  {
  }

  lemma {:induction false} PendingKeepsReview(base: set<Tool>, rs: RunState, es: seq<Event>)
    requires ReviewInv(rs) && Pending(base, rs, es)
    ensures ReviewInv(After(base, rs, es))
    decreases |es|
  {
    hide Observe, Validate, Rewrite, Permitted, PhaseOf;
    if es != [] {
      StepKeepsReview(base, rs, es[0]);
      PendingKeepsReview(base, Next(base, rs, es[0]), es[1..]);
    }
  }

  /**
   * Safety of review: in a run from a fresh coordinator, from the moment the review holds until completion the
   * last evaluation covers every captured and every selected path, and no evidence is lost again.
   */
  lemma ReviewCoversEverything(base: set<Tool>, contract: Contract, es: seq<Event>)
    requires Pending(base, Begin(contract), es)
    ensures var end := After(base, Begin(contract), es);
            end.coord.review.visualReviewed ==>
              && Evidence(end.coord)
              && AllIn(end.coord.gallery.capturedPaths, end.evaluated)
              && AllIn(end.coord.review.selectedPaths, end.evaluated)
  {
    hide Observe, Validate, Rewrite, Permitted, PhaseOf;
    PendingKeepsReview(base, Begin(contract), es);
  }

  /**
   * The selection needs no hypothesis: in every sequence of events, from any state whose selection was evaluated,
   * every selected path belongs to the last evaluation.
   */
  lemma {:induction false} SelectionStaysEvaluated(base: set<Tool>, rs: RunState, es: seq<Event>)
    requires AllIn(rs.coord.review.selectedPaths, rs.evaluated)
    ensures AllIn(After(base, rs, es).coord.review.selectedPaths, After(base, rs, es).evaluated)
    decreases |es|
  {
    hide Observe, Rewrite, Permitted, AllIn;
    if es != [] {
      if es[0].Call? {
        var args := Rewrite(rs.coord, es[0].tool, es[0].raw);
        if es[0].tool == InspectImages && es[0].ok && es[0].receipt.status == EvaluatedImages {
          ReviewBinds(rs.coord, args, es[0].receipt, Evaluated(es[0].receipt));
        } else {
          ReviewOnlyByEvaluation(rs.coord, es[0].tool, args, es[0].receipt, es[0].ok);
        }
      }
      SelectionStaysEvaluated(base, Next(base, rs, es[0]), es[1..]);
    }
  }

  /** A resumed action whose restored review came with all its evidence keeps every capture reviewed. */
  lemma ResumedReviewCoversEverything(base: set<Tool>, start: State, evaluated: set<string>, es: seq<Event>)
    requires start.review.visualReviewed ==>
               && Evidence(start)
               && AllIn(start.gallery.capturedPaths, evaluated) && AllIn(start.review.selectedPaths, evaluated)
    requires Pending(base, Between(start, evaluated), es)
    ensures var end := After(base, Between(start, evaluated), es);
            end.coord.review.visualReviewed ==>
              AllIn(end.coord.gallery.capturedPaths, end.evaluated)
              && AllIn(end.coord.review.selectedPaths, end.evaluated)
  {
    hide Observe, Validate, Rewrite, Permitted, PhaseOf;
    PendingKeepsReview(base, Between(start, evaluated), es);
  }

  /** A restored review without its browser: the page is previewed again and a new capture is taken. */
  function RestoredReview(): State {
    Fresh(Contract({PreviewEffect}, 1, true, true, true)).(
      gallery := Gallery(["a"], {}, {}), review := Review(true, ["a"], false))
  }

  function PreviewAgain(): Event {
    Call(PreviewHtml, map[],
         Silent().(browserOpened := Some(true), verificationPassed := true, screenshotPath := "b"), true)
  }

  function PublishNow(): Event { Call(PublishOutput, map[], Silent().(status := OutputPublished), true) }

  function PreviewedReview(): State {
    Fresh(Contract({PreviewEffect}, 1, true, true, true)).(
      runtime := Runtime(true, "", "", [], [], false, "", []),
      browser := Browser(true, true, "", "", {}, [], false, false, []),
      gallery := Gallery(["a", "b"], {}, {}), review := Review(true, ["a"], false))
  }

  lemma PreviewTurn(base: set<Tool>)
    requires PreviewHtml in base
    ensures PhaseOf(RestoredReview()) == OpenBrowser && PreviewHtml in Permitted(RestoredReview(), base)
    ensures Observe(RestoredReview(), PreviewHtml, map[], PreviewAgain().receipt, true) == PreviewedReview()
  {
    hide StartRuntimeTools, StartupCandidates, InspectedStartup, ObserveFailure, AddCapture;
    SecondCapture();
  }

  lemma SecondCapture()
    ensures AddCapture(Gallery(["a"], {}, {}), "b", "", "") == Gallery(["a", "b"], {}, {})
  {
    EmptyFingerprint();
    assert ["a"] + ["b"] == ["a", "b"];
  }

  lemma EmptyFingerprint()
    ensures Fold("") == "" && !PerceptuallyDuplicate("", {})
  {
  }

  lemma PublishTurn(base: set<Tool>)
    requires PublishOutput in base
    ensures PhaseOf(PreviewedReview()) == Publish && PublishOutput in Permitted(PreviewedReview(), base)
    ensures Validate(PreviewedReview(), PublishOutput, Rewrite(PreviewedReview(), PublishOutput, map[])) == Accepted
  {
    hide Rewrite;
  }

  /** A resumed run that completes, its review in force, with a captured image that nobody evaluated. */
  lemma ResumedRunCanCompleteUnreviewed(base: set<Tool>)
    requires {PreviewHtml, PublishOutput} <= base
    ensures AllIn(RestoredReview().gallery.capturedPaths, {"a"})
    ensures var es := [Turn, PreviewAgain(), Turn, PublishNow()];
            var end := After(base, Between(RestoredReview(), {"a"}), es);
            && Pending(base, Between(RestoredReview(), {"a"}), es)
            && PhaseOf(end.coord) == Complete && end.coord.review.visualReviewed
            && "b" in end.coord.gallery.capturedPaths && "b" !in end.evaluated
            && end.coord.review.selectedPaths == ["a"]
  {
    hide Observe, Permitted, PhaseOf, Rewrite;
    PreviewTurn(base);
    PublishTurn(base);
    NoPreviewRewrite(RestoredReview());
    var r0 := Between(RestoredReview(), {"a"});
    var r1 := Next(base, r0, Turn);
    var r2 := Next(base, r1, PreviewAgain());
    var r3 := Next(base, r2, Turn);
    var r4 := Next(base, r3, PublishNow());
    LateCallKeepsEvidence(r3.coord, PublishOutput, Rewrite(r3.coord, PublishOutput, map[]), PublishNow().receipt, true);
    Published(r3.coord, Rewrite(r3.coord, PublishOutput, map[]));
    PublishedIsComplete(r4.coord);
    OneEvent(base, r3, PublishNow(), []);
    OneEvent(base, r2, Turn, [PublishNow()]);
    OneEvent(base, r1, PreviewAgain(), [Turn, PublishNow()]);
    OneEvent(base, r0, Turn, [PreviewAgain(), Turn, PublishNow()]);
  }

  lemma PublishedIsComplete(s: State)
    requires s == PreviewedReview().(failure := s.failure, review := Review(true, ["a"], true))
    ensures PhaseOf(s) == Complete
  {
    hide StartupCandidates, InspectedStartup;
  }

  lemma NoPreviewRewrite(s: State)
    ensures Rewrite(s, PreviewHtml, map[]) == map[] && Validate(s, PreviewHtml, map[]) == Accepted
  {
  }

  lemma Published(s: State, args: Args)
    ensures Observe(s, PublishOutput, args, PublishNow().receipt, true).review == s.review.(outputReady := true)
  {
  }

  lemma OneEvent(base: set<Tool>, rs: RunState, e: Event, es: seq<Event>)
    ensures After(base, rs, [e] + es) == After(base, Next(base, rs, e), es)
    ensures Pending(base, rs, [e] + es)
            <==> PhaseOf(rs.coord) != Complete && Enabled(rs, e) && Pending(base, Next(base, rs, e), es)
    ensures Gated(base, rs, [e] + es) <==> Enabled(rs, e) && Gated(base, Next(base, rs, e), es)
  {
    hide Observe, Validate, Rewrite, Permitted, PhaseOf;
    assert ([e] + es)[1..] == es;
  }
}
