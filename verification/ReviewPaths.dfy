/**
 * The review under the names inspect_images gives to images. Captures are recorded under the path the screenshot tool
 * reports, evaluations under the path as it is displayed, relative to the workspace.
 */
module ReviewPaths {
  import opened Text
  import opened Workflow
  import opened CaptureFilter
  import opened GatedRuns
  import opened Completion

  /** How inspect_images shows the path of an image. */
  type Displayer = string -> string

  function Displayed(paths: seq<string>, display: Displayer): seq<string> {
    seq(|paths|, i requires 0 <= i < |paths| => display(paths[i]))
  }

  function SuppliedImages(args: Args): seq<string> {
    if Paths in args && args[Paths].Names? then args[Paths].names else []
  }

  predicate NoRepeats(xs: seq<string>) { forall i, j | 0 <= i < j < |xs| :: xs[i] != xs[j] }

  /** What a successful inspect_images returns: one evaluation for each displayed path, and a selection among them. */
  predicate ReviewReceipt(args: Args, r: Receipt, display: Displayer) {
    && r.status == EvaluatedImages && r.evaluations != []
    && NoRepeats(r.evaluations)
    && multiset(r.evaluations) == multiset(Displayed(SuppliedImages(args), display))
    && forall path | path in r.selected :: path in r.evaluations
  }

  /** Every successful review of the run returned what inspect_images returns for the executed call. */
  predicate ToolReviews(base: set<Tool>, rs: RunState, es: seq<Event>, display: Displayer)
    decreases |es|
  {
    es == []
    || ((es[0].Call? && es[0].ok && es[0].tool == InspectImages ==>
           ReviewReceipt(Rewrite(rs.coord, InspectImages, es[0].raw), es[0].receipt, display))
        && ToolReviews(base, Next(base, rs, es[0]), es[1..], display))
  }

  /** Every captured path is how some captured image is displayed. */
  predicate Shown(g: Gallery, display: Displayer) {
    forall path | path in g.capturedPaths :: path in Displayed(g.capturedPaths, display)
  }

  // ---------------------------------------------------------------- one review

  lemma BoundPaths(s: State, raw: Args)
    requires s.gallery.capturedPaths != []
    ensures SuppliedImages(Rewrite(s, InspectImages, raw)) == s.gallery.capturedPaths
  {
    hide Strip, ReviewPurpose, ReviewCriteria;
  }

  lemma SameElements(xs: seq<string>, ys: seq<string>)
    requires multiset(xs) == multiset(ys)
    ensures forall x :: x in xs <==> x in ys
  {
    assert forall x :: x in xs <==> x in multiset(xs);
  }

  /** A successful review comes into force exactly if every captured path is displayed. */
  lemma ReviewHoldsIffShown(s: State, raw: Args, r: Receipt, display: Displayer)
    requires ReviewReceipt(Rewrite(s, InspectImages, raw), r, display)
    ensures var t := Observe(s, InspectImages, Rewrite(s, InspectImages, raw), r, true);
            && t == s.(review := t.review, failure := t.failure)
            && (t.review.visualReviewed <==> Shown(s.gallery, display))
  {
    hide Rewrite, Displayed, NoRepeats;
    var args := Rewrite(s, InspectImages, raw);
    LateCallKeepsEvidence(s, InspectImages, args, r, true);
    ReviewBinds(s, args, r, Evaluated(r));
    if s.gallery.capturedPaths != [] {
      BoundPaths(s, raw);
      SameElements(r.evaluations, Displayed(s.gallery.capturedPaths, display));
    }
  }

  // ---------------------------------------------------------------- displayed names without repetition

  function Elements(xs: seq<string>): set<string> { set x | x in xs }

  lemma {:induction false} RepeatsShrink(xs: seq<string>)
    ensures |Elements(xs)| <= |xs|
    ensures |Elements(xs)| == |xs| <==> NoRepeats(xs)
  {
    if xs != [] {
      var front, last := xs[..|xs| - 1], xs[|xs| - 1];
      RepeatsShrink(front);
      assert xs == front + [last];
      assert Elements(xs) == Elements(front) + {last};
      if last in front {
        assert Elements(xs) == Elements(front);
        var i :| 0 <= i < |front| && front[i] == last;
        assert xs[i] == xs[|xs| - 1];
      } else {
        assert NoRepeats(xs) <==> NoRepeats(front);
      }
    }
  }

  /** Names that cover as many different paths are different themselves. */
  lemma ShownWithoutRepeats(g: Gallery, display: Displayer)
    requires NoRepeats(g.capturedPaths) && Shown(g, display)
    ensures NoRepeats(Displayed(g.capturedPaths, display))
  {
    var paths, names := g.capturedPaths, Displayed(g.capturedPaths, display);
    RepeatsShrink(paths);
    RepeatsShrink(names);
    Subsets(Elements(paths), Elements(names));
  }

  lemma Subsets(small: set<string>, large: set<string>)
    requires small <= large
    ensures |small| <= |large|
  {
    assert large == small + (large - small);
  }

  // ---------------------------------------------------------------- leaving VISUAL_REVIEW

  /** Waiting for a review, in a turn whose surface leaves the evidence alone. */
  ghost predicate Waiting(rs: RunState) { PhaseOf(rs.coord) == VisualReview && OnlyLate(rs.allowed) }

  lemma UnreviewedWaits(s: State, t: State)
    requires PhaseOf(s) == VisualReview
    requires t == s.(review := t.review, failure := t.failure) && !t.review.visualReviewed
    ensures PhaseOf(t) == VisualReview
  {
    hide StartupCandidates, InspectedStartup;
  }

  lemma ReviewedLeaves(s: State, t: State)
    requires PhaseOf(s) == VisualReview
    requires t == s.(review := t.review, failure := t.failure) && t.review.visualReviewed
    ensures PhaseOf(t) != VisualReview
  {
    hide StartupCandidates, InspectedStartup;
  }

  lemma NotYetReviewed(s: State)
    requires PhaseOf(s) == VisualReview
    ensures !s.review.visualReviewed
  {
    hide StartupCandidates, InspectedStartup;
  }

  lemma WaitingStays(base: set<Tool>, rs: RunState, e: Event, display: Displayer)
    requires Waiting(rs) && !Shown(rs.coord.gallery, display) && Enabled(rs, e) && ToolReviews(base, rs, [e], display)
    ensures var next := Next(base, rs, e); Waiting(next) && next.coord.gallery == rs.coord.gallery
  {
    hide Observe, Rewrite, Permitted, PhaseOf, Validate, Shown, ReviewReceipt;
    match e {
      case Turn =>
        PhaseMeansEvidence(rs.coord);
        TurnFixesSurface(base, rs);
      case Call(tool, raw, r, ok) =>
        var args := Rewrite(rs.coord, tool, raw);
        NotYetReviewed(rs.coord);
        LateCallKeepsEvidence(rs.coord, tool, args, r, ok);
        if ok && tool == InspectImages {
          ReviewHoldsIffShown(rs.coord, raw, r, display);
        } else {
          ReviewOnlyByEvaluation(rs.coord, tool, args, r, ok);
        }
        UnreviewedWaits(rs.coord, Next(base, rs, e).coord);
    }
  }

  lemma {:induction false} HiddenCaptureWaits(base: set<Tool>, rs: RunState, es: seq<Event>, display: Displayer)
    requires Waiting(rs) && !Shown(rs.coord.gallery, display)
    requires Gated(base, rs, es) && ToolReviews(base, rs, es, display)
    ensures PhaseOf(After(base, rs, es).coord) == VisualReview
    decreases |es|
  {
    hide Next, Enabled, PhaseOf, OnlyLate, Shown, ReviewReceipt;
    if es != [] {
      FirstReview(base, rs, es, display);
      WaitingStays(base, rs, es[0], display);
      HiddenCaptureWaits(base, Next(base, rs, es[0]), es[1..], display);
    }
  }

  lemma FirstReview(base: set<Tool>, rs: RunState, es: seq<Event>, display: Displayer)
    requires es != [] && ToolReviews(base, rs, es, display)
    ensures ToolReviews(base, rs, [es[0]], display)
  {
    hide Next, ReviewReceipt, Rewrite;
    assert [es[0]][1..] == [];
  }

  /** The images a review call is executed for, and such a call. */
  function ReviewedImages(s: State): seq<string> {
    if s.gallery.capturedPaths == [] then ["a"] else s.gallery.capturedPaths
  }

  function ReviewCall(s: State, display: Displayer): Event {
    Call(InspectImages, map[Paths := Names(["a"])],
         Silent().(status := EvaluatedImages, evaluations := Displayed(ReviewedImages(s), display)), true)
  }

  lemma ReviewCallShape(s: State, display: Displayer)
    ensures var call := ReviewCall(s, display);
            && call.Call? && call.tool == InspectImages && call.ok && call.raw == map[Paths := Names(["a"])]
            && call.receipt.status == EvaluatedImages && call.receipt.selected == []
            && call.receipt.evaluations == Displayed(ReviewedImages(s), display)
  {
    hide Displayed, ReviewedImages;
  }

  lemma SuppliesReviewed(s: State)
    ensures SuppliedImages(Rewrite(s, InspectImages, map[Paths := Names(["a"])])) == ReviewedImages(s)
  {
    if s.gallery.capturedPaths != [] {
      BoundPaths(s, map[Paths := Names(["a"])]);
    }
  }

  lemma ReviewCallIsTheTools(s: State, display: Displayer)
    requires NoRepeats(s.gallery.capturedPaths) && Shown(s.gallery, display)
    ensures var call := ReviewCall(s, display);
            ReviewReceipt(Rewrite(s, InspectImages, call.raw), call.receipt, display)
  {
    hide Shown, ReviewCall, Rewrite, SuppliedImages;
    ReviewCallShape(s, display);
    SuppliesReviewed(s);
    if s.gallery.capturedPaths != [] {
      ShownWithoutRepeats(s.gallery, display);
    }
  }

  lemma OneReview(base: set<Tool>, rs: RunState, e: Event, es: seq<Event>, display: Displayer)
    ensures ToolReviews(base, rs, [e] + es, display)
            <==> (e.Call? && e.ok && e.tool == InspectImages ==>
                    ReviewReceipt(Rewrite(rs.coord, InspectImages, e.raw), e.receipt, display))
                 && ToolReviews(base, Next(base, rs, e), es, display)
  {
    hide Next, ReviewReceipt, Rewrite;
    assert ([e] + es)[1..] == es;
  }

  lemma ShownIsReviewed(base: set<Tool>, rs: RunState, display: Displayer)
    requires PhaseOf(rs.coord) == VisualReview && InspectImages in base
    requires NoRepeats(rs.coord.gallery.capturedPaths) && Shown(rs.coord.gallery, display)
    ensures var es := [Turn, ReviewCall(rs.coord, display)];
            && Gated(base, rs, es) && ToolReviews(base, rs, es, display)
            && PhaseOf(After(base, rs, es).coord) != VisualReview
  {
    hide Observe, Rewrite, Permitted, PhaseOf, Validate, Shown, ReviewReceipt, NoRepeats, ReviewCall;
    var call := ReviewCall(rs.coord, display);
    assert call.Call? && call.tool == InspectImages && call.ok by { ReviewCallShape(rs.coord, display); }
    assert call == Call(InspectImages, call.raw, call.receipt, true);
    ReviewIsOffered(base, rs.coord, call.raw);
    ReviewCallIsTheTools(rs.coord, display);
    ReviewHoldsIffShown(rs.coord, call.raw, call.receipt, display);
    var turned := Next(base, rs, Turn);
    ReviewedLeaves(rs.coord, Next(base, turned, call).coord);
    OneEvent(base, turned, call, []);
    OneEvent(base, rs, Turn, [call]);
    assert [Turn] + [call] == [Turn, call] && [call] + [] == [call];
    OneReview(base, turned, call, [], display);
    OneReview(base, rs, Turn, [call], display);
  }

  lemma {:induction false} RunKeepsPacking(base: set<Tool>, rs: RunState, es: seq<Event>)
    requires Packed(rs.coord.gallery)
    ensures Packed(After(base, rs, es).coord.gallery)
    decreases |es|
  {
    hide Observe, Rewrite, Permitted, Packed, Take, Offered;
    if es != [] {
      if es[0].Call? {
        var o := Observation(es[0].tool, Rewrite(rs.coord, es[0].tool, es[0].raw), es[0].receipt, es[0].ok);
        ObserveOffers(rs.coord, o);
        if Offered(o.tool, o.receipt, o.ok) != [] {
          TakePacks(rs.coord.gallery, Offered(o.tool, o.receipt, o.ok)[0]);
        }
      }
      RunKeepsPacking(base, Next(base, rs, es[0]), es[1..]);
    }
  }

  lemma PackedWithoutRepeats(g: Gallery)
    requires Packed(g)
    ensures NoRepeats(g.capturedPaths)
  {
  }

  /**
   * A turn that starts in VISUAL_REVIEW: under the reviews inspect_images returns, some gated run leaves the phase
   * exactly if every captured path is how a captured image is displayed.
   */
  lemma ReviewIsLeftIffShown(base: set<Tool>, contract: Contract, es: seq<Event>, display: Displayer)
    requires InspectImages in base && Pending(base, Begin(contract), es)
    requires Waiting(After(base, Begin(contract), es))
    ensures var rs := After(base, Begin(contract), es);
            Shown(rs.coord.gallery, display)
            <==> exists more :: Gated(base, rs, more) && ToolReviews(base, rs, more, display)
                                && PhaseOf(After(base, rs, more).coord) != VisualReview
  {
    hide Pending, Shown, Packed, NoRepeats, PhaseOf, OnlyLate, Next, Enabled, ReviewReceipt;
    var rs := After(base, Begin(contract), es);
    if Shown(rs.coord.gallery, display) {
      EmptyIsPacked(contract);
      RunKeepsPacking(base, Begin(contract), es);
      PackedWithoutRepeats(rs.coord.gallery);
      ShownIsReviewed(base, rs, display);
    } else {
      forall more | Gated(base, rs, more) && ToolReviews(base, rs, more, display)
        ensures PhaseOf(After(base, rs, more).coord) == VisualReview
      {
        HiddenCaptureWaits(base, rs, more, display);
      }
    }
  }

  lemma EmptyIsPacked(contract: Contract)
    ensures Packed(Begin(contract).coord.gallery)
  {
  }

  // ---------------------------------------------------------------- captures under paths that are never displayed

  /** No image is displayed under this path, as a relative name never equals an absolute path. */
  ghost predicate NeverDisplayed(path: string, display: Displayer) { forall image :: display(image) != path }

  /** Every capture of the run is offered under a path that is never displayed. */
  ghost predicate HiddenOffers(es: seq<Event>, display: Displayer) {
    forall e, shot :: e in es && e.Call? && shot in Offered(e.tool, e.receipt, e.ok) && shot.path != "" ==>
                        NeverDisplayed(shot.path, display)
  }

  ghost predicate Hidden(s: State, display: Displayer) {
    && s.contract.requireVisualReview && s.contract.screenshotCount > 0 && !s.review.visualReviewed
    && forall path :: path in s.gallery.capturedPaths ==> NeverDisplayed(path, display)
  }

  lemma HiddenIsNotShown(s: State, display: Displayer)
    requires Hidden(s, display) && s.gallery.capturedPaths != []
    ensures !Shown(s.gallery, display)
  {
    assert s.gallery.capturedPaths[0] in s.gallery.capturedPaths;
  }

  lemma HiddenTake(g: Gallery, shot: Shot, display: Displayer)
    requires forall path :: path in g.capturedPaths ==> NeverDisplayed(path, display)
    requires shot.path != "" ==> NeverDisplayed(shot.path, display)
    ensures forall path :: path in Take(g, shot).capturedPaths ==> NeverDisplayed(path, display)
  {
    hide NeverDisplayed, PerceptuallyDuplicate, Fold;
  }

  lemma ReviewNeedsCaptures(s: State, args: Args)
    requires Validate(s, InspectImages, args) == Accepted && s.contract.screenshotCount > 0
    ensures s.gallery.capturedPaths != []
  {
  }

  lemma HiddenStays(base: set<Tool>, rs: RunState, e: Event, display: Displayer)
    requires Hidden(rs.coord, display) && Enabled(rs, e) && ToolReviews(base, rs, [e], display)
    requires HiddenOffers([e], display)
    ensures Hidden(Next(base, rs, e).coord, display)
  {
    hide Observe, Rewrite, Permitted, Validate, Shown, ReviewReceipt, NeverDisplayed, Offered, Take;
    if e.Call? {
      var args := Rewrite(rs.coord, e.tool, e.raw);
      ContractIsFixed(rs.coord, e.tool, args, e.receipt, e.ok);
      ObserveOffers(rs.coord, Observation(e.tool, args, e.receipt, e.ok));
      assert e in [e];
      if Offered(e.tool, e.receipt, e.ok) != [] {
        var shot := Offered(e.tool, e.receipt, e.ok)[0];
        assert shot in Offered(e.tool, e.receipt, e.ok);
        HiddenTake(rs.coord.gallery, shot, display);
      }
      if e.ok && e.tool == InspectImages {
        ReviewNeedsCaptures(rs.coord, args);
        HiddenIsNotShown(rs.coord, display);
        ReviewHoldsIffShown(rs.coord, e.raw, e.receipt, display);
      } else {
        ReviewOnlyByEvaluation(rs.coord, e.tool, args, e.receipt, e.ok);
      }
    }
  }

  lemma {:induction false} HiddenAlways(base: set<Tool>, rs: RunState, es: seq<Event>, display: Displayer)
    requires Hidden(rs.coord, display) && Gated(base, rs, es) && ToolReviews(base, rs, es, display)
    requires HiddenOffers(es, display)
    ensures Hidden(After(base, rs, es).coord, display)
    decreases |es|
  {
    hide Next, Enabled, Hidden, ReviewReceipt, Offered, NeverDisplayed;
    if es != [] {
      FirstReview(base, rs, es, display);
      assert es[0] in es;
      HiddenStays(base, rs, es[0], display);
      HiddenAlways(base, Next(base, rs, es[0]), es[1..], display);
    }
  }

  lemma HiddenIsIncomplete(s: State, display: Displayer)
    requires Hidden(s, display)
    ensures PhaseOf(s) != Complete
  {
    hide StartupCandidates, InspectedStartup, NeverDisplayed;
  }

  /**
   * If captures are recorded under paths that inspect_images never displays, such as absolute paths where it displays
   * relative ones, no run of a request with a review ever has its review in force or completes.
   */
  lemma HiddenCapturesNeverComplete(base: set<Tool>, contract: Contract, es: seq<Event>, display: Displayer)
    requires SoundContract(contract) && contract.requireVisualReview
    requires Gated(base, Begin(contract), es) && ToolReviews(base, Begin(contract), es, display)
    requires HiddenOffers(es, display)
    ensures var end := After(base, Begin(contract), es).coord;
            !end.review.visualReviewed && PhaseOf(end) != Complete
  {
    hide Gated, After, ToolReviews, HiddenOffers, NeverDisplayed, PhaseOf;
    HiddenAlways(base, Begin(contract), es, display);
    HiddenIsIncomplete(After(base, Begin(contract), es).coord, display);
  }

  /** display_path on canonical paths: relative to the workspace root. */
  function WorkspacePath(root: string, path: string): (shown: string)
    ensures shown != "" && shown[0] != '/'
  {
    if path == root then "."
    else if root + "/" < path && path[|root| + 1] != '/' then path[|root| + 1..]
    else "<outside workspace>"
  }

  function DisplayPath(root: string): Displayer { path => WorkspacePath(root, path) }

  lemma AbsoluteIsNeverDisplayed(root: string, path: string)
    requires path != "" && path[0] == '/'
    ensures NeverDisplayed(path, DisplayPath(root))
  {
    forall image
      ensures DisplayPath(root)(image) != path
    {
      assert DisplayPath(root)(image) == WorkspacePath(root, image);
    }
  }

  /** Captures recorded under absolute paths, as the screenshot tool reports them, can never be reviewed. */
  lemma AbsoluteCapturesNeverComplete(base: set<Tool>, contract: Contract, es: seq<Event>, root: string)
    requires SoundContract(contract) && contract.requireVisualReview
    requires Gated(base, Begin(contract), es) && ToolReviews(base, Begin(contract), es, DisplayPath(root))
    requires forall e, shot :: e in es && e.Call? && shot in Offered(e.tool, e.receipt, e.ok) && shot.path != "" ==>
                                 shot.path[0] == '/'
    ensures PhaseOf(After(base, Begin(contract), es).coord) != Complete
  {
    hide Gated, After, ToolReviews, NeverDisplayed, PhaseOf, DisplayPath;
    forall e, shot | e in es && e.Call? && shot in Offered(e.tool, e.receipt, e.ok) && shot.path != ""
      ensures NeverDisplayed(shot.path, DisplayPath(root))
    {
      AbsoluteIsNeverDisplayed(root, shot.path);
    }
    HiddenCapturesNeverComplete(base, contract, es, DisplayPath(root));
  }

  /** If captures are recorded under the names they are displayed by, every review comes into force. */
  lemma DisplayedCapturesAreShown(g: Gallery, display: Displayer)
    requires forall path :: path in g.capturedPaths ==> display(path) == path
    ensures Shown(g, display)
  {
    forall path | path in g.capturedPaths
      ensures path in Displayed(g.capturedPaths, display)
    {
      var i :| 0 <= i < |g.capturedPaths| && g.capturedPaths[i] == path;
      assert Displayed(g.capturedPaths, display)[i] == path;
    }
  }
}
