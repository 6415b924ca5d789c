/** Greedy screenshot filtering: the recorded captures pack and cover everything that was offered. */
module CaptureFilter {
  import opened Text
  import opened Fingerprints
  import opened Workflow

  datatype Shot = Shot(path: string, digest: string, perceptual: string)

  function Take(g: Gallery, shot: Shot): Gallery { AddCapture(g, shot.path, shot.digest, shot.perceptual) }

  function TakeAll(g: Gallery, shots: seq<Shot>): Gallery {
    if shots == [] then g else Take(TakeAll(g, shots[..|shots| - 1]), shots[|shots| - 1])
  }

  const EMPTY := Gallery([], {}, {})

  /** No recorded path repeats, and comparable recorded fingerprints differ in more than the threshold of bits. */
  ghost predicate Packed(g: Gallery) {
    && (forall i, j :: 0 <= i < j < |g.capturedPaths| ==> g.capturedPaths[i] != g.capturedPaths[j])
    && (forall p, q :: p in g.capturedPerceptualHashes && q in g.capturedPerceptualHashes && p != q
                       && |p| == |q| && HexValue(p).Some? && HexValue(q).Some?
          ==> Distance(HexValue(p).value, HexValue(q).value) > Threshold(|p|))
  }

  /** The offer left its mark: it is recorded, or something recorded already stood for it. */
  ghost predicate Covered(g: Gallery, shot: Shot) {
    || shot.path in g.capturedPaths
    || (Fold(shot.digest) != "" && Fold(shot.digest) in g.capturedHashes)
    || (exists known :: known in g.capturedPerceptualHashes && Near(Fold(shot.perceptual), known))
  }

  lemma TakePacks(g: Gallery, shot: Shot)
    requires Packed(g)
    ensures Packed(Take(g, shot))
  {
    var next := Take(g, shot);
    var added := Fold(shot.perceptual);
    forall p, q | p in next.capturedPerceptualHashes && q in next.capturedPerceptualHashes && p != q
                  && |p| == |q| && HexValue(p).Some? && HexValue(q).Some?
      ensures Distance(HexValue(p).value, HexValue(q).value) > Threshold(|p|)
    {
      if !Redundant(g, shot.path, shot.digest, shot.perceptual) && (p == added || q == added) {
        NearSymmetric(p, q);
      }
    }
  }

  lemma TakeCovers(g: Gallery, shot: Shot, other: Shot)
    ensures shot.path != "" ==> Covered(Take(g, shot), shot)
    ensures Covered(g, other) ==> Covered(Take(g, shot), other)
  {
  }

  lemma CoveredIsRedundant(g: Gallery, shot: Shot)
    requires shot.path == "" || Covered(g, shot)
    ensures Take(g, shot) == g
  {
  }

  lemma {:induction false} FilterInvariant(shots: seq<Shot>)
    ensures Packed(TakeAll(EMPTY, shots))
    ensures forall i :: 0 <= i < |shots| && shots[i].path != "" ==> Covered(TakeAll(EMPTY, shots), shots[i])
  {
    if shots != [] {
      var front, last := shots[..|shots| - 1], shots[|shots| - 1];
      FilterInvariant(front);
      var g := TakeAll(EMPTY, front);
      TakePacks(g, last);
      forall i | 0 <= i < |shots| && shots[i].path != ""
        ensures Covered(TakeAll(EMPTY, shots), shots[i])
      {
        TakeCovers(g, last, shots[i]);
        assert i < |front| ==> front[i] == shots[i];
      }
    }
  }

  /** Packing and cover for every sequence of offered captures. */
  lemma FilterPacksAndCovers(shots: seq<Shot>)
    ensures Packed(TakeAll(EMPTY, shots))
    ensures forall shot :: shot in shots && shot.path != "" ==> Covered(TakeAll(EMPTY, shots), shot)
  {
    FilterInvariant(shots);
  }

  lemma {:induction false} ReplayFrom(g: Gallery, again: seq<Shot>)
    requires forall shot :: shot in again && shot.path != "" ==> Covered(g, shot)
    ensures TakeAll(g, again) == g
  {
    if again != [] {
      ReplayFrom(g, again[..|again| - 1]);
      CoveredIsRedundant(g, again[|again| - 1]);
    }
  }

  /** Offering any prefix of the history again changes nothing. */
  lemma ReplayIsIdempotent(shots: seq<Shot>, n: nat)
    requires n <= |shots|
    ensures TakeAll(TakeAll(EMPTY, shots), shots[..n]) == TakeAll(EMPTY, shots)
  {
    FilterPacksAndCovers(shots);
    ReplayFrom(TakeAll(EMPTY, shots), shots[..n]);
  }

  /** Everything recorded was offered. */
  ghost predicate Sourced(g: Gallery, shots: seq<Shot>) {
    && (forall path :: path in g.capturedPaths ==> exists s :: s in shots && s.path == path)
    && (forall h :: h in g.capturedHashes ==> exists s :: s in shots && Fold(s.digest) == h)
    && (forall h :: h in g.capturedPerceptualHashes ==> exists s :: s in shots && Fold(s.perceptual) == h)
  }

  lemma {:induction false} RecordedWereOffered(shots: seq<Shot>)
    ensures Sourced(TakeAll(EMPTY, shots), shots)
  {
    hide Fold, Redundant;
    if shots != [] {
      var front, last := shots[..|shots| - 1], shots[|shots| - 1];
      RecordedWereOffered(front);
      assert shots == front + [last] && last in shots;
      assert forall s :: s in front ==> s in shots;
    }
  }

  /** A capture unlike every one offered before, in path, digest and picture, is recorded. */
  lemma NewCapturesAreRecorded(shots: seq<Shot>, shot: Shot)
    requires shot.path != "" && forall s :: s in shots ==> s.path != shot.path
    requires forall s :: s in shots && Fold(shot.digest) != "" ==> Fold(s.digest) != Fold(shot.digest)
    requires forall s :: s in shots ==> !Near(Fold(shot.perceptual), Fold(s.perceptual))
    ensures var g, next := TakeAll(EMPTY, shots), TakeAll(EMPTY, shots + [shot]);
            && next.capturedPaths == g.capturedPaths + [shot.path]
            && (forall h :: h in next.capturedHashes <==> h in g.capturedHashes || (h == Fold(shot.digest) && h != ""))
            && (forall h :: h in next.capturedPerceptualHashes <==>
                  h in g.capturedPerceptualHashes || (h == Fold(shot.perceptual) && h != ""))
  {
    hide Fold, Near, TakeAll;
    RecordedWereOffered(shots);
    TakeAllOneMore(EMPTY, shots, [shot]);
    var g := TakeAll(EMPTY, shots);
    assert !Redundant(g, shot.path, shot.digest, shot.perceptual);
  }

  /** The marks of a recorded capture. */
  ghost predicate Marked(g: Gallery, shot: Shot) {
    && shot.path in g.capturedPaths
    && (Fold(shot.digest) != "" ==> Fold(shot.digest) in g.capturedHashes)
    && (Fold(shot.perceptual) != "" ==> Fold(shot.perceptual) in g.capturedPerceptualHashes)
  }

  lemma {:induction false} MarksStay(g: Gallery, shot: Shot, more: seq<Shot>)
    requires Marked(g, shot)
    ensures Marked(TakeAll(g, more), shot)
  {
    hide Fold, Redundant;
    if more != [] {
      MarksStay(g, shot, more[..|more| - 1]);
    }
  }

  /**
   * After a capture was recorded, whatever is offered besides, one with its path, its digest or a picture like it is not
   * recorded again.
   */
  lemma LikenessesAreRefused(g: Gallery, shot: Shot, more: seq<Shot>, again: Shot)
    requires Take(g, shot) != g
    requires again.path == shot.path || (Fold(again.digest) != "" && Fold(again.digest) == Fold(shot.digest))
             || Near(Fold(again.perceptual), Fold(shot.perceptual))
    ensures var later := TakeAll(Take(g, shot), more); Take(later, again) == later
  {
    hide Fold, TakeAll;
    assert Marked(Take(g, shot), shot);
    MarksStay(Take(g, shot), shot, more);
    if Near(Fold(again.perceptual), Fold(shot.perceptual)) {
      NearIsVisible(Fold(again.perceptual), Fold(shot.perceptual));
    }
  }

  lemma NearIsVisible(a: string, b: string)
    requires Near(a, b)
    ensures b != ""
  {
  }

  /** What one observed call offers to the gallery. */
  function Offered(tool: Tool, r: Receipt, ok: bool): seq<Shot> {
    if !ok then []
    else match tool
      case PreviewHtml => [Shot(r.screenshotPath, r.sha256, "")]
      case BrowserScreenshot => [Shot(CapturePath(r), r.sha256, r.perceptualHash)]
      case _ => []
  }

  datatype Observation = Observation(tool: Tool, args: Args, receipt: Receipt, ok: bool)

  function ObserveAll(s: State, history: seq<Observation>): State {
    if history == [] then s
    else
      var last := history[|history| - 1];
      Observe(ObserveAll(s, history[..|history| - 1]), last.tool, last.args, last.receipt, last.ok)
  }

  function AllOffered(history: seq<Observation>): seq<Shot> {
    if history == [] then []
    else
      var last := history[|history| - 1];
      AllOffered(history[..|history| - 1]) + Offered(last.tool, last.receipt, last.ok)
  }

  lemma {:induction false} TakeAllOneMore(g: Gallery, shots: seq<Shot>, more: seq<Shot>)
    requires |more| <= 1
    ensures TakeAll(g, shots + more) == (if more == [] then TakeAll(g, shots) else Take(TakeAll(g, shots), more[0]))
  {
    if more == [] {
      assert shots + more == shots;
    } else {
      assert (shots + more)[..|shots|] == shots;
    }
  }

  lemma ObserveOffers(s: State, o: Observation)
    ensures Observe(s, o.tool, o.args, o.receipt, o.ok).gallery
            == (if Offered(o.tool, o.receipt, o.ok) == [] then s.gallery
                else Take(s.gallery, Offered(o.tool, o.receipt, o.ok)[0]))
  {
    hide AddCapture, PageRuntime, PageBrowser, SeeUrl, SeeTargets;
  }

  /** The gallery of a coordinator depends on nothing but the captures its history offered. */
  lemma {:induction false} GalleryIsFilteredHistory(s: State, history: seq<Observation>)
    requires s.gallery == EMPTY
    ensures ObserveAll(s, history).gallery == TakeAll(EMPTY, AllOffered(history))
  {
    hide Observe, Take;
    if history != [] {
      var front, last := history[..|history| - 1], history[|history| - 1];
      GalleryIsFilteredHistory(s, front);
      ObserveOffers(ObserveAll(s, front), last);
      TakeAllOneMore(EMPTY, AllOffered(front), Offered(last.tool, last.receipt, last.ok));
    }
  }
}
