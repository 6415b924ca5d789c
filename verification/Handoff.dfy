/** Where review and publication of the coordinator meet the outcome contract's own list of what is missing. */
module Handoff {
  import opened Text
  import opened Workflow
  import opened OutcomeContract
  import opened RewriteProofs
  import opened GatedRuns
  import Receipts

  // ---------------------------------------------------------------- the same path

  lemma SamePathIsSymmetric(a: string, b: string)
    ensures SamePath(a, b) == SamePath(b, a)
  {
    hide CorePath, Lower, EndsWith;
  }

  /** A path is the same as itself exactly when something is left of it without trailing slashes. */
  lemma SamePathIsReflexive(a: string)
    ensures SamePath(a, a) <==> CorePath(a) != ""
  {
    hide CorePath, Lower;
  }

  lemma PlainCore(a: string)
    requires a != "" && Trimmed(a, IsSpace) && !IsSlash(a[|a| - 1])
    requires forall i | 0 <= i < |a| :: a[i] != '\\' && LowerChar(a[i]) == a[i]
    ensures CorePath(a) == a && Lower(a) == a
  {
    TrimTrims(a, IsSpace);
    assert ToSlash(a) == a;
  }

  /** It is not transitive: two files are both the same as their common bare name. */
  lemma SamePathIsNotTransitive()
    ensures SamePath("a/x", "x") && SamePath("x", "b/x") && !SamePath("a/x", "b/x")
  {
    hide CorePath, Lower;
    PlainCore("a/x");
    PlainCore("b/x");
    PlainCore("x");
    assert "a/x"[1..] == "/x" && "b/x"[1..] == "/x";
    assert "/" + "x" == "/x";
    assert "a/x"[0] != "b/x"[0];
  }

  // ---------------------------------------------------------------- rendering lists of paths

  lemma {:induction false} NormalisedElements(values: seq<string>, render: Renderer, p: string)
    ensures p in NormalisedPaths(values, render)
            <==> exists v :: v in values && Strip(v) != "" && render(Strip(v)) == Some(p)
  {
    hide Strip;
    if values != [] {
      var front, last := values[..|values| - 1], values[|values| - 1];
      NormalisedElements(front, render, p);
      assert values == front + [last];
      if Strip(last) != "" && render(Strip(last)) == Some(p) {
        assert last in values;
      }
    }
  }

  lemma {:induction false} NewElements(known: seq<string>, more: seq<string>, path: string)
    ensures path in WithNew(known, more) <==> path in known || path in more
    ensures known <= WithNew(known, more) && (Distinct(known) ==> Distinct(WithNew(known, more)))
  {
    if more != [] {
      var front, last := more[..|more| - 1], more[|more| - 1];
      NewElements(known, front, path);
      assert more == front + [last];
    }
  }

  lemma {:induction false} ImageElements(assets: seq<Asset>, path: string)
    ensures path in ImagePaths(assets) <==> exists a :: a in assets && a.kind == "image" && a.path == path
  {
    if assets != [] {
      var front, last := assets[..|assets| - 1], assets[|assets| - 1];
      ImageElements(front, path);
      assert assets == front + [last];
    }
  }

  /** An evaluation adds the renderings of its images to the inspected ones, and selects those it names, and no others. */
  lemma ReviewsAreTakenOver(d: Deliverables, r: Receipt, render: Renderer, path: string)
    ensures var after := ReviewDelivered(d, r, render);
            && after == d.(inspected := after.inspected, selected := after.selected)
            && (r.status != EvaluatedImages ==> after == d)
            && (r.status == EvaluatedImages ==>
                  && d.inspected <= after.inspected && (Distinct(d.inspected) ==> Distinct(after.inspected))
                  && (path in after.inspected <==>
                        path in d.inspected
                        || exists v :: v in r.evaluations && Strip(v) != "" && render(Strip(v)) == Some(path))
                  && (path in after.selected <==>
                        exists v :: v in r.selected && Strip(v) != "" && render(Strip(v)) == Some(path)))
  {
    hide Strip, NormalisedPaths, WithNew, Distinct;
    NewElements(d.inspected, NormalisedPaths(r.evaluations, render), path);
    NormalisedElements(r.evaluations, render, path);
    NormalisedElements(r.selected, render, path);
  }

  /** A publication replaces the output by its images and its copy sections, and nothing but the output. */
  lemma OutputsAreTakenOver(d: Deliverables, assets: seq<Asset>, copies: nat, render: Renderer, path: string)
    ensures var after := OutputDelivered(d, assets, copies, render);
            && after == d.(output := after.output, outputReady := true, copySections := copies)
            && (path in after.output <==>
                  exists a :: a in assets && a.kind == "image" && Strip(a.path) != ""
                              && render(Strip(a.path)) == Some(path))
  {
    hide Strip, NormalisedPaths, ImagePaths;
    NormalisedElements(ImagePaths(assets), render, path);
    forall v
      ensures v in ImagePaths(assets) <==> exists a :: a in assets && a.kind == "image" && a.path == v
    {
      ImageElements(assets, v);
    }
  }

  /** The coordinator's selection after a review. */
  lemma KeptSelection(s: State, args: Args, r: Receipt, p: string)
    requires r.status == EvaluatedImages
    ensures var t := Observe(s, InspectImages, args, r, true);
            p in t.review.selectedPaths <==> p in Evaluated(r) && exists v :: v in r.selected && Strip(v) == p
  {
    hide Strip;
    Receipts.SelectedElements(r.selected, Evaluated(r), p);
    DedupElements(SelectedAmong(r.selected, Evaluated(r)));
  }

  // ---------------------------------------------------------------- what gets published

  lemma ReviewStripsSelection(s: State, args: Args, r: Receipt)
    requires r.status == EvaluatedImages
    ensures StrippedSelection(Observe(s, InspectImages, args, r, true))
  {
    hide Strip, Observe;
    var t := Observe(s, InspectImages, args, r, true);
    forall i | 0 <= i < |t.review.selectedPaths|
      ensures Strip(t.review.selectedPaths[i]) == t.review.selectedPaths[i]
    {
      KeptSelection(s, args, r, t.review.selectedPaths[i]);
      var v :| v in r.selected && Strip(v) == t.review.selectedPaths[i];
      StripTwice(v);
    }
  }

  /** The rendering of a path does not depend on which slash it is written with. */
  ghost predicate SlashBlind(render: Renderer) { forall path :: render(ToSlash(path)) == render(path) }

  function ImageAsset(path: string): Asset { Asset(path, "", "image") }

  /** A publication receipt whose images are the paths of the executed call. */
  function Echoed(paths: seq<string>): seq<Asset> {
    if paths == [] then [] else Echoed(paths[..|paths| - 1]) + [ImageAsset(paths[|paths| - 1])]
  }

  lemma {:induction false} EchoedPaths(paths: seq<string>)
    ensures ImagePaths(Echoed(paths)) == paths
  {
    if paths != [] {
      var front := paths[..|paths| - 1];
      EchoedPaths(front);
      assert Echoed(paths)[..|Echoed(paths)| - 1] == Echoed(front);
      assert paths == front + [paths[|paths| - 1]];
    }
  }

  /** The contract's account once the reviewed state has published through the coordinator. */
  function HandedIn(m: Deliverables, s: State, args: Args, r: Receipt, raw: Args, copies: nat, render: Renderer)
    : Deliverables
  {
    var t := Observe(s, InspectImages, args, r, true);
    OutputDelivered(ReviewDelivered(m, r, render), Echoed(SuppliedPaths(Rewrite(t, PublishOutput, raw))), copies, render)
  }

  lemma SlashedElements(paths: seq<string>, render: Renderer, p: string)
    requires SlashBlind(render) && forall i :: 0 <= i < |paths| ==> Strip(paths[i]) == paths[i]
    ensures p in NormalisedPaths(ExpectedPaths(paths), render)
            <==> exists v :: v in paths && v != "" && render(v) == Some(p)
  {
    hide NormalisedPaths, Strip, ToSlash;
    NormalisedElements(ExpectedPaths(paths), render, p);
    forall i | 0 <= i < |paths|
      ensures Strip(ToSlash(paths[i])) == ToSlash(paths[i]) && (ToSlash(paths[i]) == "" <==> paths[i] == "")
    {
      SlashedIsStripped(paths[i]);
    }
    forall v | v in paths
      ensures ToSlash(v) in ExpectedPaths(paths)
    {
      var i :| 0 <= i < |paths| && paths[i] == v;
      assert ExpectedPaths(paths)[i] == ToSlash(v);
    }
  }

  lemma SlashedIsStripped(path: string)
    requires Strip(path) == path
    ensures Strip(ToSlash(path)) == ToSlash(path) && (ToSlash(path) == "" <==> path == "")
  {
    hide Trim;
    TrimTrims(path, IsSpace);
    assert Trimmed(ToSlash(path), IsSpace);
    TrimTrims(ToSlash(path), IsSpace);
  }

  /** Everything published was selected: the output's paths are the renderings of the evaluated selection. */
  lemma OutputElements(m: Deliverables, s: State, args: Args, r: Receipt, raw: Args, copies: nat, render: Renderer,
                       p: string)
    requires r.status == EvaluatedImages && SlashBlind(render)
    requires Observe(s, InspectImages, args, r, true).review.selectedPaths != []
    ensures p in HandedIn(m, s, args, r, raw, copies, render).output
            <==> exists v :: v in r.selected && Strip(v) in Evaluated(r) && Strip(v) != "" && render(Strip(v)) == Some(p)
  {
    hide Observe, Rewrite, NormalisedPaths, Strip, SuppliedPaths, ExpectedPaths, Evaluated, SlashBlind, StrippedSelection;
    var t := Observe(s, InspectImages, args, r, true);
    ReviewStripsSelection(s, args, r);
    PublicationIsTheSelection(t, raw);
    EchoedPaths(SuppliedPaths(Rewrite(t, PublishOutput, raw)));
    assert forall i :: 0 <= i < |t.review.selectedPaths| ==> Strip(t.review.selectedPaths[i]) == t.review.selectedPaths[i]
      by { SelectionIsStripped(t); }
    SlashedElements(t.review.selectedPaths, render, p);
    forall q
      ensures q in t.review.selectedPaths <==> q in Evaluated(r) && exists v :: v in r.selected && Strip(v) == q
    {
      KeptSelection(s, args, r, q);
    }
  }

  lemma SelectionIsStripped(s: State)
    requires StrippedSelection(s)
    ensures forall i :: 0 <= i < |s.review.selectedPaths| ==> Strip(s.review.selectedPaths[i]) == s.review.selectedPaths[i]
  {
    hide Strip;
  }

  /** Every path that was selected, evaluated or not, has a rendering with something besides slashes in it. */
  ghost predicate VisiblePaths(r: Receipt, render: Renderer) {
    forall v :: v in r.selected && render(Strip(v)).Some? ==> CorePath(render(Strip(v)).value) != ""
  }

  /** Nothing unselected is ever attached through the coordinator. */
  lemma NothingUnselectedIsAttached(m: Deliverables, s: State, args: Args, r: Receipt, raw: Args, copies: nat,
                                    render: Renderer)
    requires r.status == EvaluatedImages && SlashBlind(render) && VisiblePaths(r, render)
    requires Observe(s, InspectImages, args, r, true).review.selectedPaths != []
    ensures var d := HandedIn(m, s, args, r, raw, copies, render); AllMatched(d.output, d.selected)
  {
    hide Observe, Rewrite, NormalisedPaths, Strip, Evaluated, SamePath, CorePath, AllMatched, SlashBlind;
    var d := HandedIn(m, s, args, r, raw, copies, render);
    forall p | p in d.output
      ensures p in d.selected && SamePath(p, p)
    {
      OutputElements(m, s, args, r, raw, copies, render, p);
      NormalisedElements(r.selected, render, p);
      SamePathIsReflexive(p);
    }
    MatchedByElements(d.output, d.selected);
  }

  /**
   * After a review and any publication that passes through the coordinator, the contract still asks for selected
   * images exactly when some selected path is the same as no selected path that the review also evaluated.
   */
  lemma SelectionIsAttachedIffEvaluated(m: Deliverables, s: State, args: Args, r: Receipt, raw: Args, copies: nat,
                                        render: Renderer)
    requires r.status == EvaluatedImages && SlashBlind(render)
    requires Observe(s, InspectImages, args, r, true).review.selectedPaths != []
    ensures var d := HandedIn(m, s, args, r, raw, copies, render);
            AllMatched(d.selected, d.output)
            <==> forall v :: v in r.selected && Strip(v) != "" && render(Strip(v)).Some? ==>
                   exists w :: w in r.selected && Strip(w) in Evaluated(r) && Strip(w) != ""
                               && render(Strip(w)).Some? && SamePath(render(Strip(v)).value, render(Strip(w)).value)
  {
    hide Observe, Rewrite, NormalisedPaths, Strip, Evaluated, SamePath, AllMatched, SlashBlind;
    var d := HandedIn(m, s, args, r, raw, copies, render);
    MatchedByElements(d.selected, d.output);
    forall p
      ensures p in d.output <==>
                exists v :: v in r.selected && Strip(v) in Evaluated(r) && Strip(v) != "" && render(Strip(v)) == Some(p)
      ensures p in d.selected <==> exists v :: v in r.selected && Strip(v) != "" && render(Strip(v)) == Some(p)
    {
      OutputElements(m, s, args, r, raw, copies, render, p);
      NormalisedElements(r.selected, render, p);
    }
  }

  /**
   * For the receipts the evaluator returns, which select only evaluated images, every publication through the
   * coordinator satisfies the contract: all selected images are attached and no others.
   */
  lemma EvaluatedSelectionIsHandedIn(m: Deliverables, s: State, args: Args, r: Receipt, raw: Args, copies: nat,
                                     render: Renderer)
    requires r.status == EvaluatedImages && SlashBlind(render) && VisiblePaths(r, render)
    requires forall v :: v in r.selected ==> Strip(v) in Evaluated(r)
    requires Observe(s, InspectImages, args, r, true).review.selectedPaths != []
    ensures var d := HandedIn(m, s, args, r, raw, copies, render);
            AllMatched(d.selected, d.output) && AllMatched(d.output, d.selected)
  {
    hide Observe, Rewrite, NormalisedPaths, Strip, Evaluated, SamePath, CorePath, AllMatched, SlashBlind, HandedIn;
    NothingUnselectedIsAttached(m, s, args, r, raw, copies, render);
    SelectionIsAttachedIffEvaluated(m, s, args, r, raw, copies, render);
    forall v | v in r.selected && Strip(v) != "" && render(Strip(v)).Some?
      ensures SamePath(render(Strip(v)).value, render(Strip(v)).value)
    {
      SamePathIsReflexive(render(Strip(v)).value);
    }
  }

  /** The selection stays free of surrounding blanks in every sequence of events. */
  lemma {:induction false} SelectionStaysStripped(base: set<Tool>, rs: RunState, es: seq<Event>)
    requires StrippedSelection(rs.coord)
    ensures StrippedSelection(After(base, rs, es).coord)
    decreases |es|
  {
    hide Observe, Rewrite, Permitted, Strip;
    if es != [] {
      if es[0].Call? {
        var args := Rewrite(rs.coord, es[0].tool, es[0].raw);
        if es[0].tool == InspectImages && es[0].ok && es[0].receipt.status == EvaluatedImages {
          ReviewStripsSelection(rs.coord, args, es[0].receipt);
        } else {
          ReviewOnlyByEvaluation(rs.coord, es[0].tool, args, es[0].receipt, es[0].ok);
        }
      }
      SelectionStaysStripped(base, Next(base, rs, es[0]), es[1..]);
    }
  }

  /**
   * Started or resumed, whatever has happened since, a publication with a selection names exactly that selection, and
   * every image of it was in the last evaluation.
   */
  lemma PublishedImagesWereEvaluated(base: set<Tool>, rs: RunState, es: seq<Event>, raw: Args)
    requires AllIn(rs.coord.review.selectedPaths, rs.evaluated) && StrippedSelection(rs.coord)
    requires After(base, rs, es).coord.review.selectedPaths != []
    ensures var end := After(base, rs, es);
            && SuppliedPaths(Rewrite(end.coord, PublishOutput, raw)) == ExpectedPaths(end.coord.review.selectedPaths)
            && AllIn(end.coord.review.selectedPaths, end.evaluated)
  {
    hide After, Rewrite, StrippedSelection, AllIn, SuppliedPaths, ExpectedPaths;
    SelectionStaysEvaluated(base, rs, es);
    SelectionStaysStripped(base, rs, es);
    PublicationIsTheSelection(After(base, rs, es).coord, raw);
  }

  function HalfEvaluated(): Receipt {
    Silent().(status := EvaluatedImages, evaluations := ["a"], selected := ["a", "z"])
  }

  function ToSlashRenderer(): Renderer { (raw: string) => Some(ToSlash(raw)) }

  lemma BareNames()
    ensures Strip("a") == "a" && Strip("z") == "z" && ToSlash("a") == "a" && ToSlash("z") == "z"
    ensures !SamePath("z", "a")
  {
    hide CorePath, Lower;
    TrimTrims("a", IsSpace);
    TrimTrims("z", IsSpace);
    PlainCore("a");
    PlainCore("z");
    assert "a"[0] != "z"[0];
  }

  lemma SlashRenderingIsBlind()
    ensures SlashBlind(ToSlashRenderer())
  {
    hide ToSlash;
    forall path: string
      ensures ToSlash(ToSlash(path)) == ToSlash(path)
    {
      SlashedOnce(path);
    }
  }

  lemma SlashedOnce(path: string)
    ensures ToSlash(ToSlash(path)) == ToSlash(path)
  {
  }

  lemma HalfFacts(w: string)
    ensures "a" in HalfEvaluated().selected && "z" in HalfEvaluated().selected && "a" in Evaluated(HalfEvaluated())
    ensures w in HalfEvaluated().selected && Strip(w) in Evaluated(HalfEvaluated()) ==> w == "a"
    ensures HalfEvaluated().status == EvaluatedImages
  {
    hide Strip;
    BareNames();
    assert HalfEvaluated().selected[0] == "a" && HalfEvaluated().selected[1] == "z";
    assert HalfEvaluated().evaluations[0] == "a" && "a"[0] != "z"[0];
  }

  /**
   * The hypothesis on the selection is needed: after a receipt that selects an unevaluated image, which the registered
   * evaluator refuses to return, no publication would satisfy the contract.
   */
  lemma UnevaluatedSelectionIsNeverAttached(m: Deliverables, s: State, args: Args, raw: Args, copies: nat)
    ensures var d := HandedIn(m, s, args, HalfEvaluated(), raw, copies, ToSlashRenderer());
            !AllMatched(d.selected, d.output)
  {
    hide Observe, Rewrite, NormalisedPaths, Strip, SamePath, AllMatched, ToSlash, HandedIn, HalfEvaluated, Evaluated,
      SlashBlind;
    var r, render := HalfEvaluated(), ToSlashRenderer();
    BareNames();
    SlashRenderingIsBlind();
    forall w
      ensures w in r.selected && Strip(w) in Evaluated(r) ==> w == "a"
    {
      HalfFacts(w);
    }
    HalfFacts("a");
    KeptSelection(s, args, r, "a");
    SelectionIsAttachedIffEvaluated(m, s, args, r, raw, copies, render);
  }
}
