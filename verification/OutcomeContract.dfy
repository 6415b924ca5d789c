/** The outcome contract's own account of browser screenshots, kept in lists instead of sets. */
module OutcomeContract {
  import opened Text
  import opened Fingerprints
  import opened Workflow
  import opened CaptureFilter

  /** How the filesystem renders a non-blank path: None stands for OSError. */
  type Renderer = string -> Option<string>

  /** The renderings of the non-blank paths, each once. */
  function NormalisedPaths(values: seq<string>, render: Renderer): seq<string> {
    if values == [] then []
    else
      var front := NormalisedPaths(values[..|values| - 1], render);
      var raw := Strip(values[|values| - 1]);
      if raw == "" || render(raw).None? || render(raw).value in front then front
      else front + [render(raw).value]
  }

  datatype Images = Images(paths: seq<string>, hashes: seq<string>, perceptual: seq<string>)

  predicate NearDuplicate(candidate: string, existing: seq<string>) {
    exists i | 0 <= i < |existing| :: Near(candidate, existing[i])
  }

  function FirstNew(paths: seq<string>, known: seq<string>): Option<string> {
    if paths == [] then None else if paths[0] !in known then Some(paths[0]) else FirstNew(paths[1..], known)
  }

  function WithText(texts: seq<string>, text: string): seq<string> { if text == "" then texts else texts + [text] }

  /** What one screenshot receipt does to the contract's images. */
  function AddImage(m: Images, r: Receipt, render: Renderer): Images {
    var digest, perceptual := Fold(r.sha256), Fold(r.perceptualHash);
    if (digest != "" && digest in m.hashes) || NearDuplicate(perceptual, m.perceptual) then m
    else
      match FirstNew(Renderings(r, render), m.paths)
      case None => m
      case Some(path) => Images(m.paths + [path], WithText(m.hashes, digest), WithText(m.perceptual, perceptual))
  }

  function Renderings(r: Receipt, render: Renderer): seq<string> {
    NormalisedPaths([r.screenshotPath, r.workspacePath], render)
  }

  // ---------------------------------------------------------------- reviewed, selected and published images

  datatype Deliverables = Deliverables(
    inspected: seq<string>, selected: seq<string>, output: seq<string>, browserOpened: bool, outputReady: bool,
    copySections: nat)

  datatype Demands = Demands(screenshots: nat, copy: bool, browser: bool, visual: bool, output: bool)

  datatype Complaint =
    | NotOpened | TooFewCaptures | TooFewInspected | NoneSelected | NotPublished | SelectionNotAttached
    | UnselectedAttached | NoCopy

  function CorePath(path: string): string { TrimRight(NormPath(path), IsSlash) }

  predicate EndsWith(text: string, end: string) { |end| <= |text| && text[|text| - |end|..] == end }

  /** Absolute and workspace-relative renderings of one file count as the same path. */
  predicate SamePath(left: string, right: string) {
    var first, second := Lower(CorePath(left)), Lower(CorePath(right));
    CorePath(left) != "" && CorePath(right) != ""
    && (first == second || EndsWith(first, "/" + second) || EndsWith(second, "/" + first))
  }

  predicate HasSame(path: string, others: seq<string>) { exists i | 0 <= i < |others| :: SamePath(path, others[i]) }

  /** Every path of `some` has a same path among `others`. */
  predicate AllMatched(some: seq<string>, others: seq<string>) { forall i | 0 <= i < |some| :: HasSame(some[i], others) }

  function WithNew(known: seq<string>, more: seq<string>): seq<string> {
    if more == [] then known
    else
      var front := WithNew(known, more[..|more| - 1]);
      if more[|more| - 1] in front then front else front + [more[|more| - 1]]
  }

  function ReviewDelivered(d: Deliverables, r: Receipt, render: Renderer): Deliverables {
    if r.status != EvaluatedImages then d
    else d.(inspected := WithNew(d.inspected, NormalisedPaths(r.evaluations, render)),
            selected := NormalisedPaths(r.selected, render))
  }

  function ImagePaths(assets: seq<Asset>): seq<string> {
    if assets == [] then []
    else
      var last := assets[|assets| - 1];
      ImagePaths(assets[..|assets| - 1]) + if last.kind == "image" then [last.path] else []
  }

  function OutputDelivered(d: Deliverables, assets: seq<Asset>, copies: nat, render: Renderer): Deliverables {
    d.(output := NormalisedPaths(ImagePaths(assets), render), outputReady := true, copySections := copies)
  }

  /** What each complaint means. */
  predicate Lacks(n: Demands, captures: nat, d: Deliverables, includeOutput: bool, c: Complaint) {
    match c
    case NotOpened => n.browser && !d.browserOpened
    case TooFewCaptures => captures < n.screenshots
    case TooFewInspected => n.visual && |d.inspected| < n.screenshots
    case NoneSelected => n.visual && d.selected == []
    case NotPublished => includeOutput && n.output && !d.outputReady
    case SelectionNotAttached => includeOutput && n.output && !AllMatched(d.selected, d.output)
    case UnselectedAttached => includeOutput && n.output && n.visual && !AllMatched(d.output, d.selected)
    case NoCopy => includeOutput && n.output && n.copy && d.copySections == 0
  }

  function LackingAmong(all: seq<Complaint>, n: Demands, captures: nat, d: Deliverables, includeOutput: bool)
    : seq<Complaint>
  {
    if all == [] then []
    else
      var last := all[|all| - 1];
      LackingAmong(all[..|all| - 1], n, captures, d, includeOutput)
      + if Lacks(n, captures, d, includeOutput, last) then [last] else []
  }

  function InOrder(): seq<Complaint> {
    [NotOpened, TooFewCaptures, TooFewInspected, NoneSelected, NotPublished, SelectionNotAttached, UnselectedAttached,
     NoCopy]
  }

  lemma {:induction false} ComplaintsAreLacks(all: seq<Complaint>, n: Demands, captures: nat, d: Deliverables,
                                              includeOutput: bool, c: Complaint)
    ensures c in LackingAmong(all, n, captures, d, includeOutput) <==> c in all && Lacks(n, captures, d, includeOutput, c)
  {
    hide Lacks;
    if all != [] {
      ComplaintsAreLacks(all[..|all| - 1], n, captures, d, includeOutput, c);
      assert all == all[..|all| - 1] + [all[|all| - 1]];
    }
  }

  /**
   * Nothing is missing exactly if the browser was opened, enough images were captured and inspected and some selected, and
   * the output, once it counts, is there, attaches all that was selected and nothing else, and has the copy asked for.
   */
  lemma NothingMissingIff(n: Demands, captures: nat, d: Deliverables, includeOutput: bool)
    ensures LackingAmong(InOrder(), n, captures, d, includeOutput) == [] <==>
              && (n.browser ==> d.browserOpened) && captures >= n.screenshots
              && (n.visual ==> |d.inspected| >= n.screenshots && d.selected != [])
              && (includeOutput && n.output ==>
                    && d.outputReady
                    && (forall p :: p in d.selected ==> exists q :: q in d.output && SamePath(p, q))
                    && (n.visual ==> forall q :: q in d.output ==> exists p :: p in d.selected && SamePath(q, p))
                    && (n.copy ==> d.copySections > 0))
  {
    hide Lacks, SamePath, AllMatched, LackingAmong, InOrder;
    var all := LackingAmong(InOrder(), n, captures, d, includeOutput);
    forall c: Complaint
      ensures c in all <==> Lacks(n, captures, d, includeOutput, c)
    {
      ComplaintsAreLacks(InOrder(), n, captures, d, includeOutput, c);
      EveryComplaint(c);
    }
    MatchedByElements(d.selected, d.output);
    MatchedByElements(d.output, d.selected);
    if all != [] {
      assert all[0] in all;
    }
    assert all == [] <==> forall c: Complaint :: !Lacks(n, captures, d, includeOutput, c);
    LacksNothing(n, captures, d, includeOutput);
  }

  lemma EveryComplaint(c: Complaint)
    ensures c in InOrder()
  {
    var all := InOrder();
    assert all[0] == NotOpened && all[1] == TooFewCaptures && all[2] == TooFewInspected && all[3] == NoneSelected;
    assert all[4] == NotPublished && all[5] == SelectionNotAttached && all[6] == UnselectedAttached && all[7] == NoCopy;
  }

  lemma LacksNothing(n: Demands, captures: nat, d: Deliverables, includeOutput: bool)
    ensures (forall c: Complaint :: !Lacks(n, captures, d, includeOutput, c)) <==>
              && (n.browser ==> d.browserOpened) && captures >= n.screenshots
              && (n.visual ==> |d.inspected| >= n.screenshots && d.selected != [])
              && (includeOutput && n.output ==>
                    && d.outputReady && AllMatched(d.selected, d.output)
                    && (n.visual ==> AllMatched(d.output, d.selected)) && (n.copy ==> d.copySections > 0))
  {
    hide AllMatched;
    if forall c: Complaint :: !Lacks(n, captures, d, includeOutput, c) {
      assert !Lacks(n, captures, d, includeOutput, NotOpened) && !Lacks(n, captures, d, includeOutput, TooFewCaptures);
      assert !Lacks(n, captures, d, includeOutput, TooFewInspected);
      assert !Lacks(n, captures, d, includeOutput, NoneSelected) && !Lacks(n, captures, d, includeOutput, NotPublished);
      assert !Lacks(n, captures, d, includeOutput, SelectionNotAttached);
      assert !Lacks(n, captures, d, includeOutput, UnselectedAttached) && !Lacks(n, captures, d, includeOutput, NoCopy);
    }
  }

  lemma MatchedByElements(some: seq<string>, others: seq<string>)
    ensures AllMatched(some, others) <==> forall p :: p in some ==> exists q :: q in others && SamePath(p, q)
  {
    hide SamePath;
    forall p
      ensures HasSame(p, others) <==> exists q :: q in others && SamePath(p, q)
    {
      if exists q :: q in others && SamePath(p, q) {
        var q :| q in others && SamePath(p, q);
        var i :| 0 <= i < |others| && others[i] == q;
      }
    }
    if AllMatched(some, others) {
      forall p | p in some
        ensures HasSame(p, others)
      {
        var i :| 0 <= i < |some| && some[i] == p;
      }
    }
    if forall p :: p in some ==> exists q :: q in others && SamePath(p, q) {
      forall i | 0 <= i < |some|
        ensures HasSame(some[i], others)
      {
        assert some[i] in some;
      }
    }
  }

  /** The path in lower case, with forward slashes, without blanks around it and slashes behind it. */
  ghost predicate Folded(path: string, core: string) {
    && core != "" && core[|core| - 1] != '/'
    && exists slashes: string :: (forall c :: c in slashes ==> c == '/') && Lower(ToSlash(Strip(path))) == core + slashes
  }

  /** Two paths are the same exactly if one, folded, is the other or ends in a slash and the other. */
  lemma SamePathMeans(a: string, b: string)
    ensures SamePath(a, b) <==>
              exists x, y :: Folded(a, x) && Folded(b, y)
                             && (x == y || (exists directory: string :: x == directory + "/" + y)
                                 || exists directory: string :: y == directory + "/" + x)
  {
    hide CorePath, Lower, ToSlash, Strip, EndsWith, Folded;
    CoreIsFolded(a);
    CoreIsFolded(b);
    var x, y := Lower(CorePath(a)), Lower(CorePath(b));
    EndsBySlash(x, y);
    EndsBySlash(y, x);
    assert SamePath(a, b) <==>
        CorePath(a) != "" && CorePath(b) != "" && (x == y || EndsWith(x, "/" + y) || EndsWith(y, "/" + x));
    if CorePath(a) != "" && CorePath(b) != "" {
      assert Folded(a, x) && Folded(b, y);
    }
  }

  lemma EndsBySlash(x: string, y: string)
    ensures EndsWith(x, "/" + y) <==> exists directory: string :: x == directory + "/" + y
  {
    if EndsWith(x, "/" + y) {
      var directory := x[..|x| - |y| - 1];
      assert x == directory + ("/" + y) == directory + "/" + y;
    }
    if directory: string :| x == directory + "/" + y {
      assert x[|x| - (|y| + 1)..] == "/" + y;
    }
  }

  lemma {:induction false} RightSlashes(text: string)
    ensures exists slashes: string :: (forall c :: c in slashes ==> c == '/') && text == TrimRight(text, IsSlash) + slashes
  {
    if text != "" && IsSlash(text[|text| - 1]) {
      RightSlashes(text[..|text| - 1]);
      var slashes: string :| (forall c :: c in slashes ==> c == '/')
                             && text[..|text| - 1] == TrimRight(text[..|text| - 1], IsSlash) + slashes;
      assert text == TrimRight(text, IsSlash) + (slashes + "/");
    } else {
      assert text == TrimRight(text, IsSlash) + "";
    }
  }

  lemma {:induction false} TrimSlashes(core: string, more: string)
    requires (core == "" || core[|core| - 1] != '/') && forall c :: c in more ==> c == '/'
    ensures TrimRight(core + more, IsSlash) == core
  {
    if more == "" {
      assert core + more == core;
    } else {
      assert more[|more| - 1] in more;
      assert (core + more)[..|core + more| - 1] == core + more[..|more| - 1];
      var front := more[..|more| - 1];
      forall c | c in front
        ensures c == '/'
      {
        assert more == front + [more[|more| - 1]];
        assert c in more;
      }
      TrimSlashes(core, front);
    }
  }

  lemma LowerSlashes(text: string, slashes: string)
    requires forall c :: c in slashes ==> c == '/'
    ensures Lower(text + slashes) == Lower(text) + slashes
    ensures |Lower(text)| == |text| && (text != "" ==> (Lower(text)[|text| - 1] == '/' <==> text[|text| - 1] == '/'))
  {
    forall i | 0 <= i < |slashes|
      ensures slashes[i] == '/'
    {
      assert slashes[i] in slashes;
    }
  }

  lemma CoreIsFolded(path: string)
    ensures forall core :: Folded(path, core) <==> CorePath(path) != "" && core == Lower(CorePath(path))
  {
    hide Strip, ToSlash, Lower;
    var text := ToSlash(Strip(path));
    assert CorePath(path) == TrimRight(text, IsSlash);
    RightSlashes(text);
    TrimRightIsPrefix(text, IsSlash);
    var slashes: string :| (forall c :: c in slashes ==> c == '/') && text == CorePath(path) + slashes;
    LowerSlashes(CorePath(path), slashes);
    if CorePath(path) != "" {
      assert Folded(path, Lower(CorePath(path)));
    }
    TrimSlashes(Lower(CorePath(path)), slashes);
    forall core | Folded(path, core)
      ensures core == Lower(CorePath(path)) && CorePath(path) != ""
    {
      var more: string :| (forall c :: c in more ==> c == '/') && Lower(text) == core + more;
      TrimSlashes(core, more);
      LowerSlashes(CorePath(path), "");
    }
  }

  class ActionOutcomeContract {
    var capturedImages: seq<string>
    var capturedHashes: seq<string>
    var capturedPerceptualHashes: seq<string>
    var inspectedImages: seq<string>
    var selectedImages: seq<string>
    var outputImages: seq<string>
    var browserOpened: bool
    var outputReady: bool
    var copySections: nat

    function Recorded(): Images
      reads this
    {
      Images(capturedImages, capturedHashes, capturedPerceptualHashes)
    }

    function Delivered(): Deliverables
      reads this
    {
      Deliverables(inspectedImages, selectedImages, outputImages, browserOpened, outputReady, copySections)
    }

    constructor ()
      ensures Recorded() == Images([], [], [])
      ensures Delivered() == Deliverables([], [], [], false, false, 0)
    {
      capturedImages, capturedHashes, capturedPerceptualHashes := [], [], [];
      inspectedImages, selectedImages, outputImages := [], [], [];
      browserOpened, outputReady, copySections := false, false, 0;
    }

    method IsNearDuplicate(candidate: string) returns (duplicate: bool)
      ensures duplicate == NearDuplicate(candidate, capturedPerceptualHashes)
    {
      if HexValue(candidate).None? {
        return false;
      }
      for i := 0 to |capturedPerceptualHashes|
        invariant forall j | 0 <= j < i :: !Near(candidate, capturedPerceptualHashes[j])
      {
        if Near(candidate, capturedPerceptualHashes[i]) {
          return true;
        }
      }
      duplicate := false;
    }

    /** One screenshot receipt, or one restored screenshot: the first rendering not yet known is appended. */
    method ObserveScreenshot(r: Receipt, render: Renderer)
      modifies this`capturedImages, this`capturedHashes, this`capturedPerceptualHashes
      ensures Recorded() == AddImage(old(Recorded()), r, render)
    {
      var digest := Fold(r.sha256);
      if digest != "" && digest in capturedHashes {
        return;
      }
      var perceptual := Fold(r.perceptualHash);
      var duplicate := IsNearDuplicate(perceptual);
      if duplicate {
        return;
      }
      var paths := Renderings(r, render);
      for i := 0 to |paths|
        invariant Recorded() == old(Recorded())
        invariant FirstNew(paths, capturedImages) == FirstNew(paths[i..], capturedImages)
      {
        if paths[i] !in capturedImages {
          capturedImages := capturedImages + [paths[i]];
          if digest != "" {
            capturedHashes := capturedHashes + [digest];
          }
          if perceptual != "" {
            capturedPerceptualHashes := capturedPerceptualHashes + [perceptual];
          }
          break;
        }
      }
    }

    /** A visual review: evaluated images are added, the selection is replaced. */
    method ObserveReview(r: Receipt, render: Renderer)
      modifies this`inspectedImages, this`selectedImages
      ensures Delivered() == ReviewDelivered(old(Delivered()), r, render)
    {
      hide NormalisedPaths;
      if r.status != EvaluatedImages {
        return;
      }
      var paths := NormalisedPaths(r.evaluations, render);
      for i := 0 to |paths|
        invariant inspectedImages == WithNew(old(inspectedImages), paths[..i])
        invariant selectedImages == old(selectedImages)
      {
        assert paths[..i + 1][..i] == paths[..i];
        if paths[i] !in inspectedImages {
          inspectedImages := inspectedImages + [paths[i]];
        }
      }
      assert paths[..|paths|] == paths;
      selectedImages := NormalisedPaths(r.selected, render);
    }

    /** A published output: its images and copy sections replace the ones known before. */
    method ObserveOutput(assets: seq<Asset>, copies: nat, render: Renderer)
      modifies this`outputImages, this`outputReady, this`copySections
      ensures Delivered() == OutputDelivered(old(Delivered()), assets, copies, render)
    {
      hide NormalisedPaths;
      outputReady, copySections := true, copies;
      var images: seq<string> := [];
      for i := 0 to |assets|
        invariant images == ImagePaths(assets[..i])
      {
        assert assets[..i + 1][..i] == assets[..i];
        if assets[i].kind == "image" {
          images := images + [assets[i].path];
        }
      }
      assert assets[..|assets|] == assets;
      outputImages := NormalisedPaths(images, render);
    }

    /** What the request still lacks, in the order it is reported. */
    method Missing(n: Demands, includeOutput: bool) returns (missing: seq<Complaint>)
      ensures missing == LackingAmong(InOrder(), n, |capturedImages|, Delivered(), includeOutput)
    {
      hide Lacks, InOrder;
      missing := [];
      var order := InOrder();
      NothingLacking(n, |capturedImages|, Delivered(), includeOutput);
      for k := 0 to |order|
        invariant missing == LackingAmong(order[..k], n, |capturedImages|, Delivered(), includeOutput)
      {
        assert order[..k + 1][..k] == order[..k];
        if Lacks(n, |capturedImages|, Delivered(), includeOutput, order[k]) {
          missing := missing + [order[k]];
        }
      }
      assert order[..|order|] == order;
    }
  }

  lemma NothingLacking(n: Demands, captures: nat, d: Deliverables, includeOutput: bool)
    ensures LackingAmong([], n, captures, d, includeOutput) == []
  {
  }

  // ---------------------------------------------------------------- agreement with the coordinator

  function AddImages(m: Images, rs: seq<Receipt>, render: Renderer): Images {
    if rs == [] then m else AddImage(AddImages(m, rs[..|rs| - 1], render), rs[|rs| - 1], render)
  }

  function CaptureAll(g: Gallery, rs: seq<Receipt>): Gallery {
    if rs == [] then g else CaptureReceipt(CaptureAll(g, rs[..|rs| - 1]), rs[|rs| - 1])
  }

  /** The receipts the coordinator records, in order. */
  function Kept(rs: seq<Receipt>): seq<Receipt> {
    if rs == [] then []
    else
      var front, last := rs[..|rs| - 1], rs[|rs| - 1];
      Kept(front) + (if CaptureReceipt(CaptureAll(EMPTY, front), last) == CaptureAll(EMPTY, front) then [] else [last])
  }

  /** The image a receipt offers first. */
  function Image(r: Receipt, render: Renderer): string
    requires Renderings(r, render) != []
  {
    Renderings(r, render)[0]
  }

  /** Receipts offer an image to both accounts or to neither, and the same image to one as to the other. */
  ghost predicate SameImages(rs: seq<Receipt>, render: Renderer) {
    && (forall r :: r in rs ==> (CapturePath(r) == "" <==> Renderings(r, render) == []))
    && (forall a, b :: a in rs && b in rs && CapturePath(a) != "" && CapturePath(b) != "" ==>
          (CapturePath(a) == CapturePath(b) <==> Image(a, render) == Image(b, render)))
  }

  /** An image offered again has no second rendering, or carries the digest it had. */
  ghost predicate RepeatsAreKnown(rs: seq<Receipt>, render: Renderer) {
    forall i, j :: 0 <= i < j < |rs| && CapturePath(rs[i]) == CapturePath(rs[j]) != "" ==>
      |Renderings(rs[j], render)| == 1 || Fold(rs[i].sha256) == Fold(rs[j].sha256) != ""
  }

  ghost predicate Comparable(rs: seq<Receipt>, render: Renderer) { SameImages(rs, render) && RepeatsAreKnown(rs, render) }

  /** Paths, images and fingerprints of the kept receipts, as both accounts should hold them. */
  ghost predicate Agree(g: Gallery, m: Images, kept: seq<Receipt>, render: Renderer) {
    && |g.capturedPaths| == |kept| == |m.paths|
    && (forall i :: 0 <= i < |kept| ==> g.capturedPaths[i] == CapturePath(kept[i]) != "")
    && (forall i :: 0 <= i < |kept| ==> Renderings(kept[i], render) != [] && Image(kept[i], render) == m.paths[i])
    && (forall text :: text in g.capturedHashes <==> text in m.hashes)
    && (forall text :: text in g.capturedPerceptualHashes <==> text in m.perceptual)
    && m.hashes == Digests(kept)
    && m.perceptual == Pictures(kept)
  }

  function Digests(rs: seq<Receipt>): seq<string> {
    if rs == [] then [] else WithText(Digests(rs[..|rs| - 1]), Fold(rs[|rs| - 1].sha256))
  }

  function Pictures(rs: seq<Receipt>): seq<string> {
    if rs == [] then [] else WithText(Pictures(rs[..|rs| - 1]), Fold(rs[|rs| - 1].perceptualHash))
  }

  lemma {:induction false} KeptIsPart(rs: seq<Receipt>)
    ensures forall r :: r in Kept(rs) ==> r in rs
  {
    if rs != [] {
      KeptIsPart(rs[..|rs| - 1]);
    }
  }

  lemma PathsAgree(g: Gallery, m: Images, kept: seq<Receipt>, rs: seq<Receipt>, r: Receipt, render: Renderer)
    requires Agree(g, m, kept, render) && SameImages(rs, render)
    requires r in rs && CapturePath(r) != "" && forall k :: k in kept ==> k in rs
    ensures Image(r, render) in m.paths <==> CapturePath(r) in g.capturedPaths
  {
    hide Renderings, CapturePath, Fold, Digests, Pictures;
    if CapturePath(r) in g.capturedPaths {
      var i :| 0 <= i < |kept| && g.capturedPaths[i] == CapturePath(r);
      assert kept[i] in rs && Image(kept[i], render) == m.paths[i];
    }
    if Image(r, render) in m.paths {
      var i :| 0 <= i < |kept| && m.paths[i] == Image(r, render);
      assert kept[i] in rs;
    }
  }

  lemma {:induction false} DigestsAreListed(kept: seq<Receipt>, k: Receipt)
    requires k in kept && Fold(k.sha256) != ""
    ensures Fold(k.sha256) in Digests(kept)
  {
    hide Fold;
    var front, last := kept[..|kept| - 1], kept[|kept| - 1];
    assert kept == front + [last];
    if k != last {
      DigestsAreListed(front, k);
    }
  }

  /** If the path of the next receipt is recorded, its digest is too, unless it has no second rendering. */
  lemma RecordedRepeat(g: Gallery, m: Images, kept: seq<Receipt>, front: seq<Receipt>, r: Receipt, render: Renderer)
    requires Agree(g, m, kept, render) && RepeatsAreKnown(front + [r], render)
    requires (forall k :: k in kept ==> k in front) && CapturePath(r) != "" && CapturePath(r) in g.capturedPaths
    ensures |Renderings(r, render)| == 1 || (Fold(r.sha256) != "" && Fold(r.sha256) in m.hashes)
  {
    hide Renderings, CapturePath, Fold, Digests, Pictures;
    var i :| 0 <= i < |kept| && g.capturedPaths[i] == CapturePath(r);
    assert kept[i] in kept && kept[i] in front;
    var k :| 0 <= k < |front| && front[k] == kept[i];
    var rs := front + [r];
    assert rs[k] == kept[i] && rs[|front|] == r;
    if |Renderings(r, render)| != 1 {
      DigestsAreListed(kept, kept[i]);
    }
  }

  function WithMember(texts: set<string>, text: string): set<string> { if text == "" then texts else texts + {text} }

  lemma AppendAgrees(g: Gallery, m: Images, kept: seq<Receipt>, r: Receipt, image: string, render: Renderer)
    requires Agree(g, m, kept, render)
    requires CapturePath(r) != "" && Renderings(r, render) != [] && Image(r, render) == image
    ensures Agree(Gallery(g.capturedPaths + [CapturePath(r)], WithMember(g.capturedHashes, Fold(r.sha256)),
                          WithMember(g.capturedPerceptualHashes, Fold(r.perceptualHash))),
                  Images(m.paths + [image], WithText(m.hashes, Fold(r.sha256)),
                         WithText(m.perceptual, Fold(r.perceptualHash))),
                  kept + [r], render)
  {
    hide Renderings, Fold, CapturePath;
    assert (kept + [r])[..|kept|] == kept;
  }

  lemma DuplicatesAgree(g: Gallery, m: Images, kept: seq<Receipt>, perceptual: string, render: Renderer)
    requires Agree(g, m, kept, render)
    ensures PerceptuallyDuplicate(perceptual, g.capturedPerceptualHashes) == NearDuplicate(perceptual, m.perceptual)
  {
    if NearDuplicate(perceptual, m.perceptual) {
      var i :| 0 <= i < |m.perceptual| && Near(perceptual, m.perceptual[i]);
      assert m.perceptual[i] in g.capturedPerceptualHashes;
    }
  }

  /**
   * The receipt names a recorded image under one more rendering, and neither its digest nor its picture gives it away:
   * the contract adds an image, the coordinator does not.
   */
  predicate Splits(g: Gallery, m: Images, r: Receipt, render: Renderer) {
    && CapturePath(r) != "" && CapturePath(r) in g.capturedPaths
    && !(Fold(r.sha256) != "" && Fold(r.sha256) in m.hashes)
    && !NearDuplicate(Fold(r.perceptualHash), m.perceptual)
    && FirstNew(Renderings(r, render), m.paths).Some?
  }

  /** From agreeing accounts, both accept or reject the same image unless the receipt splits them. */
  lemma SameDecision(g: Gallery, m: Images, kept: seq<Receipt>, front: seq<Receipt>, r: Receipt, render: Renderer)
    requires Agree(g, m, kept, render) && SameImages(front + [r], render)
    requires forall k :: k in kept ==> k in front
    ensures Splits(g, m, r, render) ==>
              Redundant(g, CapturePath(r), r.sha256, r.perceptualHash) && |AddImage(m, r, render).paths| == |m.paths| + 1
    ensures !Splits(g, m, r, render) && Redundant(g, CapturePath(r), r.sha256, r.perceptualHash) ==>
              AddImage(m, r, render) == m
    ensures !Redundant(g, CapturePath(r), r.sha256, r.perceptualHash) ==>
      && Renderings(r, render) != []
      && AddImage(m, r, render) == Images(m.paths + [Image(r, render)], WithText(m.hashes, Fold(r.sha256)),
                                          WithText(m.perceptual, Fold(r.perceptualHash)))
  {
    hide Renderings, CapturePath, Fold, Digests, Pictures, Near;
    DuplicatesAgree(g, m, kept, Fold(r.perceptualHash), render);
    assert r in front + [r];
    if CapturePath(r) != "" {
      PathsAgree(g, m, kept, front + [r], r, render);
      if CapturePath(r) !in g.capturedPaths {
        assert FirstNew(Renderings(r, render), m.paths) == Some(Image(r, render));
      }
    }
  }

  /** One receipt keeps the accounts in agreement exactly if it does not split them. */
  lemma StepAgreesUnlessSplit(g: Gallery, m: Images, kept: seq<Receipt>, front: seq<Receipt>, r: Receipt,
                              render: Renderer)
    requires Agree(g, m, kept, render) && SameImages(front + [r], render)
    requires forall k :: k in kept ==> k in front
    ensures Agree(CaptureReceipt(g, r), AddImage(m, r, render),
                  kept + (if CaptureReceipt(g, r) == g then [] else [r]), render)
            <==> !Splits(g, m, r, render)
  {
    hide Renderings, Fold, Digests, Pictures, SameImages, Near, Splits;
    SameDecision(g, m, kept, front, r, render);
    if Redundant(g, CapturePath(r), r.sha256, r.perceptualHash) {
      assert kept + [] == kept;
    } else {
      AppendAgrees(g, m, kept, r, Image(r, render), render);
      assert |CaptureReceipt(g, r).capturedPaths| != |g.capturedPaths|;
    }
  }

  lemma PrefixHasSameImages(rs: seq<Receipt>, render: Renderer)
    requires rs != [] && SameImages(rs, render)
    ensures SameImages(rs[..|rs| - 1], render)
  {
    hide Renderings, CapturePath, Fold;
    assert forall r :: r in rs[..|rs| - 1] ==> r in rs;
  }

  lemma NothingAgrees(render: Renderer)
    ensures Agree(EMPTY, Images([], [], []), [], render)
  {
  }

  /** The accounts agree now and did so after every earlier receipt. */
  ghost predicate AgreeThroughout(rs: seq<Receipt>, render: Renderer) {
    && Agree(CaptureAll(EMPTY, rs), AddImages(Images([], [], []), rs, render), Kept(rs), render)
    && (rs != [] ==> AgreeThroughout(rs[..|rs| - 1], render))
  }

  /** No receipt splits the accounts it meets. */
  predicate NeverSplit(rs: seq<Receipt>, render: Renderer) {
    rs == []
    || (var front := rs[..|rs| - 1];
        NeverSplit(front, render)
        && !Splits(CaptureAll(EMPTY, front), AddImages(Images([], [], []), front, render), rs[|rs| - 1], render))
  }

  /**
   * Simulation: over any run of screenshot and restore receipts whose images render injectively, the set-based and the
   * list-based account keep the same receipts, in the same order, with the same digests and fingerprints, exactly if no
   * receipt splits them.
   */
  lemma {:induction false} AccountsAgreeUnlessSplit(rs: seq<Receipt>, render: Renderer)
    requires SameImages(rs, render)
    ensures AgreeThroughout(rs, render) <==> NeverSplit(rs, render)
  {
    hide SameImages, CaptureReceipt, AddImage, Agree, Splits;
    if rs == [] {
      NothingAgrees(render);
    } else {
      var front := rs[..|rs| - 1];
      PrefixHasSameImages(rs, render);
      AccountsAgreeUnlessSplit(front, render);
      KeptIsPart(front);
      assert front + [rs[|rs| - 1]] == rs;
      if AgreeThroughout(front, render) {
        StepAgreesUnlessSplit(CaptureAll(EMPTY, front), AddImages(Images([], [], []), front, render), Kept(front), front,
                              rs[|rs| - 1], render);
      }
    }
  }

  // ---------------------------------------------------------------- receipts that never split

  lemma PrefixIsComparable(rs: seq<Receipt>, render: Renderer)
    requires rs != [] && Comparable(rs, render)
    ensures Comparable(rs[..|rs| - 1], render)
  {
    hide Renderings, CapturePath, Fold;
    var front := rs[..|rs| - 1];
    PrefixHasSameImages(rs, render);
    assert forall i :: 0 <= i < |front| ==> front[i] == rs[i];
  }

  lemma OneKnown(paths: seq<string>, known: seq<string>)
    ensures |paths| == 1 && paths[0] in known ==> FirstNew(paths, known) == None
  {
    if |paths| == 1 {
      assert paths[1..] == [];
    }
  }

  lemma KnownRepeatsDoNotSplit(g: Gallery, m: Images, kept: seq<Receipt>, front: seq<Receipt>, r: Receipt,
                               render: Renderer)
    requires Agree(g, m, kept, render) && Comparable(front + [r], render)
    requires forall k :: k in kept ==> k in front
    ensures !Splits(g, m, r, render)
  {
    hide Renderings, CapturePath, Fold, Digests, Pictures, RepeatsAreKnown, Near;
    if CapturePath(r) != "" && CapturePath(r) in g.capturedPaths {
      assert r in front + [r];
      PathsAgree(g, m, kept, front + [r], r, render);
      RecordedRepeat(g, m, kept, front, r, render);
      OneKnown(Renderings(r, render), m.paths);
    }
  }

  lemma ComparableHasSameImages(rs: seq<Receipt>, render: Renderer)
    requires Comparable(rs, render)
    ensures SameImages(rs, render)
  {
  }

  /** If every image offered again has one rendering only or keeps its digest, the accounts agree throughout. */
  lemma {:induction false} AccountsAgree(rs: seq<Receipt>, render: Renderer)
    requires Comparable(rs, render)
    ensures AgreeThroughout(rs, render)
  {
    hide Comparable, CaptureReceipt, AddImage, Agree, Splits;
    ComparableHasSameImages(rs, render);
    AccountsAgreeUnlessSplit(rs, render);
    if rs != [] {
      var front := rs[..|rs| - 1];
      PrefixIsComparable(rs, render);
      AccountsAgree(front, render);
      ComparableHasSameImages(front, render);
      AccountsAgreeUnlessSplit(front, render);
      KeptIsPart(front);
      assert front + [rs[|rs| - 1]] == rs;
      KnownRepeatsDoNotSplit(CaptureAll(EMPTY, front), AddImages(Images([], [], []), front, render), Kept(front), front,
                             rs[|rs| - 1], render);
    }
  }

  /**
   * Receipts as the screenshot tool returns them: a visible path of an existing file, rendered injectively, and the
   * digest of that file, each file written once.
   */
  ghost predicate ToolReceipts(rs: seq<Receipt>, render: Renderer) {
    && (forall r :: r in rs ==> Strip(r.screenshotPath) == r.screenshotPath != "" && render(r.screenshotPath).Some?
                                && Fold(r.sha256) != "")
    && (forall a, b :: a in rs && b in rs ==>
          (a.screenshotPath == b.screenshotPath <==> render(a.screenshotPath) == render(b.screenshotPath)))
    && (forall a, b :: a in rs && b in rs && a.screenshotPath == b.screenshotPath ==> Fold(a.sha256) == Fold(b.sha256))
  }

  lemma ToolImage(r: Receipt, render: Renderer)
    requires Strip(r.screenshotPath) == r.screenshotPath != "" && render(r.screenshotPath).Some?
    ensures Renderings(r, render) != [] && Image(r, render) == render(r.screenshotPath).value
    ensures CapturePath(r) == r.screenshotPath
  {
    hide Strip;
    var paths := [r.screenshotPath, r.workspacePath];
    assert paths[..1] == [r.screenshotPath] && [r.screenshotPath][..0] == [];
    assert NormalisedPaths([r.screenshotPath], render) == [render(r.screenshotPath).value];
  }

  /** Under the screenshot tool's own receipts, taken or restored in any order, the accounts always agree. */
  lemma ToolReceiptsAgree(rs: seq<Receipt>, render: Renderer)
    requires ToolReceipts(rs, render)
    ensures AgreeThroughout(rs, render) && NeverSplit(rs, render)
  {
    hide Renderings, CapturePath, Fold, Strip, AgreeThroughout, NeverSplit;
    forall r | r in rs
      ensures Renderings(r, render) != [] && Some(Image(r, render)) == render(r.screenshotPath)
      ensures CapturePath(r) == r.screenshotPath
    {
      ToolImage(r, render);
    }
    AccountsAgree(rs, render);
    AccountsAgreeUnlessSplit(rs, render);
  }

  function Identity(): Renderer { (raw: string) => Some(raw) }

  function FirstShot(): Receipt { Silent().(screenshotPath := "a") }

  function SecondShot(): Receipt { Silent().(screenshotPath := "a", workspacePath := "b") }

  lemma NothingToFold()
    ensures Fold("") == "" && Strip("a") == "a" && Strip("b") == "b" && Strip("") == ""
  {
  }

  lemma ShotRenderings()
    ensures Renderings(FirstShot(), Identity()) == ["a"]
    ensures Renderings(SecondShot(), Identity()) == ["a", "b"]
  {
    hide Strip, Silent, NormalisedPaths;
    NothingToFold();
    OnePath();
    OneMorePath(["a"], "", Identity());
    OneMorePath(["a"], "b", Identity());
    assert ["a"] + [""] == ["a", ""] && ["a"] + ["b"] == ["a", "b"];
    assert SecondShot().screenshotPath == "a" && SecondShot().workspacePath == "b";
    assert FirstShot().screenshotPath == "a" && FirstShot().workspacePath == "" by { SilentPaths(); }
  }

  lemma SilentPaths()
    ensures Silent().screenshotPath == "" && Silent().workspacePath == ""
  {
  }

  lemma OnePath()
    ensures NormalisedPaths(["a"], Identity()) == ["a"]
  {
    hide Strip;
    NothingToFold();
    assert ["a"][..0] == [];
  }

  lemma OneMorePath(values: seq<string>, more: string, render: Renderer)
    ensures var front := NormalisedPaths(values, render);
            NormalisedPaths(values + [more], render)
            == if Strip(more) == "" || render(Strip(more)).None? || render(Strip(more)).value in front then front
               else front + [render(Strip(more)).value]
  {
    hide Strip;
    assert (values + [more])[..|values|] == values;
  }

  lemma FirstShotAccounts()
    ensures CaptureAll(EMPTY, [FirstShot()]) == Gallery(["a"], {}, {})
    ensures AddImages(Images([], [], []), [FirstShot()], Identity()) == Images(["a"], [], [])
  {
    hide Renderings, Fold, Near;
    ShotRenderings();
    NothingToFold();
    var first := FirstShot();
    assert [first][..0] == [];
    assert [] + ["a"] == ["a"];
    assert CaptureAll(EMPTY, [first]) == CaptureReceipt(EMPTY, first);
    assert AddImages(Images([], [], []), [first], Identity()) == AddImage(Images([], [], []), first, Identity());
  }

  lemma SecondShotSplits()
    ensures Splits(Gallery(["a"], {}, {}), Images(["a"], [], []), SecondShot(), Identity())
  {
    hide Renderings, Fold, Near;
    ShotRenderings();
    NothingToFold();
    assert SecondShot().screenshotPath == "a";
    assert FirstNew(["a", "b"], ["a"]) == FirstNew(["b"], ["a"]);
  }

  lemma ShotsHaveSameImages()
    ensures SameImages([FirstShot(), SecondShot()], Identity())
  {
    hide Renderings;
    ShotRenderings();
    assert SecondShot().screenshotPath == "a" && FirstShot().screenshotPath == "a";
  }

  /**
   * An image offered again with a second rendering, no digest and no fingerprint splits the accounts. The screenshot
   * tool never returns such a receipt.
   */
  lemma TwoPathsDiverge()
    ensures SameImages([FirstShot(), SecondShot()], Identity())
    ensures !NeverSplit([FirstShot(), SecondShot()], Identity())
    ensures !AgreeThroughout([FirstShot(), SecondShot()], Identity())
  {
    hide CaptureAll, AddImages, SameImages, Splits, AgreeThroughout, FirstShot, SecondShot;
    ShotsHaveSameImages();
    FirstShotAccounts();
    SecondShotSplits();
    assert [FirstShot(), SecondShot()][..1] == [FirstShot()];
    AccountsAgreeUnlessSplit([FirstShot(), SecondShot()], Identity());
  }
}
