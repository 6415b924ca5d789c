/** Completion is reachable exactly from the states that are in neither dead end. */
module Progress {
  import opened Text
  import opened Fingerprints
  import opened Workflow
  import opened GatedRuns
  import opened Completion

  predicate CanCall(base: set<Tool>, s: State, tool: Tool, raw: Args) {
    tool in Permitted(s, base) && Validate(s, tool, Rewrite(s, tool, raw)) == Accepted
  }

  function CallOn(s: State, tool: Tool, raw: Args, r: Receipt): State {
    Observe(s, tool, Rewrite(s, tool, raw), r, true)
  }

  /** Some captured path is, without the blanks around it, a captured path. */
  predicate Selectable(g: Gallery) { exists path :: path in g.capturedPaths && Strip(path) in g.capturedPaths }

  /** The review evaluates each captured path once and selects among them, as the evaluator is held to. */
  predicate HonestReview(g: Gallery, r: Receipt) {
    multiset(r.evaluations) == multiset(g.capturedPaths) && forall path | path in r.selected :: path in r.evaluations
  }

  /** Reviews are honest as long as an honest one can select anything at all. */
  predicate Fair(s: State, tool: Tool, r: Receipt) {
    tool == InspectImages && Selectable(s.gallery) ==> HonestReview(s.gallery, r)
  }

  /** At most `n` successful gated calls with fair receipts, each in its own turn, reach completion. */
  ghost predicate CompletesIn(base: set<Tool>, s: State, n: nat)
    decreases n
  {
    PhaseOf(s) == Complete
    || (n > 0 && exists tool, raw, r ::
          CanCall(base, s, tool, raw) && Fair(s, tool, r) && CompletesIn(base, CallOn(s, tool, raw, r), n - 1))
  }

  lemma OneCall(base: set<Tool>, s: State, tool: Tool, raw: Args, r: Receipt, n: nat)
    requires CanCall(base, s, tool, raw) && Fair(s, tool, r) && CompletesIn(base, CallOn(s, tool, raw, r), n)
    ensures CompletesIn(base, s, n + 1)
  {
    hide CanCall, CallOn, PhaseOf, Fair;
  }

  lemma {:induction false} MoreIsEnough(base: set<Tool>, s: State, n: nat, m: nat)
    requires CompletesIn(base, s, n) && n <= m
    ensures CompletesIn(base, s, m)
    decreases n
  {
    hide CanCall, CallOn, PhaseOf, Fair;
    if PhaseOf(s) != Complete {
      var tool, raw, r :|
        CanCall(base, s, tool, raw) && Fair(s, tool, r) && CompletesIn(base, CallOn(s, tool, raw, r), n - 1);
      MoreIsEnough(base, CallOn(s, tool, raw, r), n - 1, m - 1);
    }
  }

  // ---------------------------------------------------------------- the late phases

  /** Captures still owed. */
  function Owed(s: State): nat {
    if s.contract.screenshotCount > |s.gallery.capturedPaths| then s.contract.screenshotCount - |s.gallery.capturedPaths|
    else 0
  }

  lemma FromPublish(base: set<Tool>, s: State)
    requires Equipped(base) && PhaseOf(s) == Publish && !DeadPublish(s)
    ensures CompletesIn(base, s, 1)
  {
    hide StartupCandidates, InspectedStartup, Rewrite, StartRuntimeTools, CompletesIn;
    var t := CallOn(s, PublishOutput, map[], PublishNow().receipt);
    LateCallKeepsEvidence(s, PublishOutput, Rewrite(s, PublishOutput, map[]), PublishNow().receipt, true);
    Published(s, Rewrite(s, PublishOutput, map[]));
    assert PhaseOf(t) == Complete;
    assert CompletesIn(base, t, 0) by { Done(base, t); }
    OneCall(base, s, PublishOutput, map[], PublishNow().receipt, 0);
  }

  lemma Done(base: set<Tool>, s: State)
    requires PhaseOf(s) == Complete
    ensures CompletesIn(base, s, 0)
  {
  }

  /** The review that selects one captured path; without a selectable one it evaluates and selects another image. */
  ghost function GoodReview(s: State): Receipt {
    if Selectable(s.gallery) then
      var path :| path in s.gallery.capturedPaths && Strip(path) in s.gallery.capturedPaths;
      Silent().(status := EvaluatedImages, evaluations := s.gallery.capturedPaths, selected := [path])
    else Silent().(status := EvaluatedImages, evaluations := s.gallery.capturedPaths + ["a"], selected := ["a"])
  }

  lemma SelectsOne(v: Review, g: Gallery, r: Receipt, path: string)
    requires r.status == EvaluatedImages && r.selected == [path] && Strip(path) in r.evaluations
    requires forall p :: p in g.capturedPaths ==> p in r.evaluations
    ensures ReviewImages(v, g, r) == v.(visualReviewed := true, selectedPaths := [Strip(path)])
  {
    hide Strip;
    var evaluated := Evaluated(r);
    assert [path][..0] == [];
    assert SelectedAmong([], evaluated) == [];
    assert SelectedAmong([path], evaluated) == [Strip(path)];
    assert [Strip(path)][..0] == [];
    assert Dedup([Strip(path)]) == [Strip(path)];
  }

  lemma GoodReviewSelects(s: State)
    ensures var v := ReviewImages(s.review, s.gallery, GoodReview(s));
            && v == s.review.(visualReviewed := true, selectedPaths := v.selectedPaths)
            && v.selectedPaths != []
    ensures Fair(s, InspectImages, GoodReview(s))
  {
    hide Strip, ReviewImages;
    var r := GoodReview(s);
    if Selectable(s.gallery) {
      assert r.selected[0] in s.gallery.capturedPaths;
      SelectsOne(s.review, s.gallery, r, r.selected[0]);
    } else {
      assert Strip("a") == "a" by { BareA(); }
      assert r.evaluations[|s.gallery.capturedPaths|] == "a";
      SelectsOne(s.review, s.gallery, r, "a");
    }
  }

  lemma BareA()
    ensures Strip("a") == "a"
  {
    TrimTrims("a", IsSpace);
  }

  lemma GoodReviewReviews(s: State, args: Args)
    ensures var t := Observe(s, InspectImages, args, GoodReview(s), true);
            && t == s.(review := t.review, failure := t.failure)
            && t.review == s.review.(visualReviewed := true, selectedPaths := t.review.selectedPaths)
            && t.review.selectedPaths != []
  {
    hide GoodReview, ReviewImages;
    GoodReviewSelects(s);
    assert Observe(s, InspectImages, args, GoodReview(s), true)
        == s.(failure := Failure("", None), review := ReviewImages(s.review, s.gallery, GoodReview(s)));
  }

  /** A state that comes out of a review with a selection is through, or left to be published. */
  lemma ReviewedPhase(s: State, t: State)
    requires PhaseOf(s) in {VisualReview, Publish} && t == s.(review := t.review, failure := t.failure)
    requires t.review == s.review.(visualReviewed := true, selectedPaths := t.review.selectedPaths)
    requires t.review.selectedPaths != []
    ensures PhaseOf(t) == Complete || (PhaseOf(t) == Publish && !DeadPublish(t))
    ensures PhaseOf(s) == Publish ==> PhaseOf(t) == Publish
  {
    hide StartupCandidates, InspectedStartup;
  }

  lemma FromReview(base: set<Tool>, s: State)
    requires Equipped(base) && PhaseOf(s) == VisualReview
    ensures CompletesIn(base, s, 2)
  {
    hide PhaseOf, Observe, Permitted, Validate, Rewrite, GoodReview, CompletesIn, DeadPublish, Fair;
    var t := CallOn(s, InspectImages, map[], GoodReview(s));
    ReviewIsOffered(base, s, map[]);
    GoodReviewSelects(s);
    GoodReviewReviews(s, Rewrite(s, InspectImages, map[]));
    ReviewedPhase(s, t);
    if PhaseOf(t) == Complete {
      Done(base, t);
      MoreIsEnough(base, t, 0, 1);
    } else {
      FromPublish(base, t);
    }
    OneCall(base, s, InspectImages, map[], GoodReview(s), 1);
  }

  function NewShot(s: State): Receipt { Silent().(screenshotPath := FreshName(s.gallery.capturedPaths)) }

  lemma NewShotAdds(s: State)
    ensures CaptureReceipt(s.gallery, NewShot(s))
            == s.gallery.(capturedPaths := s.gallery.capturedPaths + [NewShot(s).screenshotPath])
  {
    hide Fold, PerceptuallyDuplicate;
    FreshNameIsFresh(s.gallery.capturedPaths);
    NoFingerprint(s.gallery.capturedPerceptualHashes);
  }

  lemma NoFingerprint(existing: set<string>)
    ensures Fold("") == "" && !PerceptuallyDuplicate("", existing)
  {
    assert HexBody("") == None;
  }

  lemma CaptureStep(base: set<Tool>, s: State)
    requires Equipped(base) && Reachable(s) && PhaseOf(s) == Capture
    ensures CanCall(base, s, BrowserScreenshot, map[])
    ensures var t := CallOn(s, BrowserScreenshot, map[], NewShot(s));
            Reachable(t) && Owed(t) == Owed(s) - 1 && PhaseOf(t) in {Capture, VisualReview, Publish, Complete}
            && !t.review.visualReviewed
  {
    hide StartupCandidates, InspectedStartup, Rewrite, StartRuntimeTools, CaptureReceipt;
    NewShotAdds(s);
  }

  lemma FromEvidence(base: set<Tool>, s: State)
    requires Equipped(base) && Reachable(s) && !s.review.visualReviewed
    requires PhaseOf(s) in {Capture, VisualReview, Publish, Complete}
    ensures CompletesIn(base, s, Owed(s) + 2)
    decreases Owed(s)
  {
    hide StartupCandidates, InspectedStartup, CanCall, CallOn, CompletesIn, ListedNormal;
    match PhaseOf(s) {
      case Capture =>
        CaptureStep(base, s);
        var t := CallOn(s, BrowserScreenshot, map[], NewShot(s));
        FromEvidence(base, t);
        OneCall(base, s, BrowserScreenshot, map[], NewShot(s), Owed(t) + 2);
      case VisualReview =>
        FromReview(base, s);
        MoreIsEnough(base, s, 2, Owed(s) + 2);
      case Publish =>
        FromPublish(base, s);
        MoreIsEnough(base, s, 1, Owed(s) + 2);
      case Complete =>
        Done(base, s);
        MoreIsEnough(base, s, 0, Owed(s) + 2);
    }
  }

  // ---------------------------------------------------------------- the browser phases

  function CleanPage(): Receipt { Silent() }

  lemma CleanPageInspects(s: State, args: Args)
    ensures var t := Observe(s, BrowserInspect, args, CleanPage(), true);
            && t == s.(runtime := t.runtime, browser := t.browser, failure := t.failure)
            && t.browser.browserOpened && t.browser.browserInspected
            && t.runtime.runtimeReady == s.runtime.runtimeReady
  {
    assert CleanPage().networkErrors + CleanPage().consoleErrors == [];
  }

  lemma FromInspectBrowser(base: set<Tool>, s: State)
    requires Equipped(base) && Reachable(s) && PhaseOf(s) == InspectBrowser
    ensures CompletesIn(base, s, Owed(s) + 3)
  {
    hide StartupCandidates, InspectedStartup, Rewrite, StartRuntimeTools, Observe, CompletesIn;
    CleanPageInspects(s, Rewrite(s, BrowserInspect, map[]));
    var t := CallOn(s, BrowserInspect, map[], CleanPage());
    FromEvidence(base, t);
    OneCall(base, s, BrowserInspect, map[], CleanPage(), Owed(t) + 2);
  }

  function GoodPreview(): Receipt { Silent().(browserOpened := Some(true), verificationPassed := true) }

  lemma GoodPreviewOpens(s: State, args: Args)
    ensures var t := Observe(s, PreviewHtml, args, GoodPreview(), true);
            && t == s.(runtime := t.runtime, browser := t.browser, failure := t.failure)
            && t.browser.browserOpened && t.browser.browserInspected && t.runtime.runtimeReady
  {
    hide PerceptuallyDuplicate, Fold;
  }

  /** Previewing is never validated away and settles runtime and browser at once. */
  lemma FromPreview(base: set<Tool>, s: State)
    requires Equipped(base) && Reachable(s) && PreviewHtml in Permitted(s, base)
    requires !Evidence(s) && Active(s)
    ensures CompletesIn(base, s, Owed(s) + 3)
  {
    hide StartupCandidates, InspectedStartup, Rewrite, Observe, Permitted, CompletesIn;
    GoodPreviewOpens(s, Rewrite(s, PreviewHtml, map[]));
    var t := CallOn(s, PreviewHtml, map[], GoodPreview());
    FromEvidence(base, t);
    OneCall(base, s, PreviewHtml, map[], GoodPreview(), Owed(t) + 2);
  }

  lemma FromBrowserPhases(base: set<Tool>, s: State)
    requires Equipped(base) && Reachable(s) && Active(s) && (NeedsRuntime(s) ==> s.runtime.runtimeReady)
    requires !s.review.visualReviewed
    ensures CompletesIn(base, s, Owed(s) + 3)
  {
    hide StartupCandidates, InspectedStartup, CompletesIn, ListedNormal, StartRuntimeTools;
    if PhaseOf(s) == OpenBrowser {
      FromPreview(base, s);
    } else if PhaseOf(s) == InspectBrowser {
      FromInspectBrowser(base, s);
    } else {
      FromEvidence(base, s);
      MoreIsEnough(base, s, Owed(s) + 2, Owed(s) + 3);
    }
  }

  // ---------------------------------------------------------------- the startup phases

  function GoodStart(): Receipt {
    Silent().(status := Running, ready := true, readinessUrl := LOCAL_URL, readinessType := "url",
              readinessValue := LOCAL_URL)
  }

  lemma GoodStartReadies(s: State, args: Args)
    ensures var t := Observe(s, StartProcess, args, GoodStart(), true);
            && t == s.(runtime := t.runtime, browser := t.browser, failure := t.failure)
            && t.runtime.runtimeReady
  {
  }

  lemma FromFeasibleStart(base: set<Tool>, s: State)
    requires Equipped(base) && Reachable(s) && Active(s) && StartFeasible(s)
    requires !Evidence(s) && StartProcess in Permitted(s, base)
    ensures CompletesIn(base, s, Owed(s) + 4)
  {
    hide StartupCandidates, InspectedStartup, Rewrite, Observe, Permitted, CompletesIn, Validate, StartFeasible;
    FeasibleStartAccepted(s);
    var raw := UrlArgs(FeasibleCwd(s));
    GoodStartReadies(s, Rewrite(s, StartProcess, raw));
    var t := CallOn(s, StartProcess, raw, GoodStart());
    FromBrowserPhases(base, t);
    OneCall(base, s, StartProcess, raw, GoodStart(), Owed(t) + 3);
  }

  function ReactManifest(): Receipt { Silent().(manifest := Some(Manifest({"react"}, "", {}))) }

  function ReadArgs(path: string): Args { map[PathKey := Words(path)] }

  /** A single lower-case path component is its own normal form, name and folded name, in the root directory. */
  lemma PlainName(text: string)
    requires text != "" && text != "." && '/' !in text && Trimmed(text, IsSpace)
    requires forall i | 0 <= i < |text| :: text[i] != '\\' && LowerChar(text[i]) == text[i]
    ensures NormPath(text) == text && PathName(text) == text && Lower(text) == text && ParentDir(text) == "."
  {
    TrimTrims(text, IsSpace);
    assert ToSlash(text) == text;
    NoSeparator(text, '/');
    assert [text][1..] == [] && [text][..0] == [];
    assert Components([text]) == [text];
    assert PathRoot(text) == "" by { assert text[0] != '/'; }
  }

  lemma RootManifestText()
    ensures NormPath("package.json") == "package.json" && IsPackageJson("package.json")
    ensures ParentDir("package.json") == "."
  {
    hide NormPath, PathName, Lower, ParentDir;
    PlainName("package.json");
  }

  lemma {:induction false} NoSeparator(text: string, sep: char)
    requires sep !in text
    ensures Split(text, sep) == [text]
  {
    if text != "" {
      NoSeparator(text[1..], sep);
      assert [text[0]] + text[1..] == text;
    }
  }

  lemma {:induction false} PutIsRanked(ms: seq<(string, Manifest)>, path: string, m: Manifest)
    ensures (path, m) in PutManifest(ms, path, m)
  {
    if ms != [] && ms[0].0 != path {
      PutIsRanked(ms[1..], path, m);
    }
  }

  lemma {:induction false} UiManifestIsRanked(ms: seq<(string, Manifest)>, path: string, m: Manifest)
    requires (path, m) in ms && ServesUi(m)
    ensures (Markers(m), ParentDir(path)) in RankedFrontends(ms)
  {
    hide ServesUi, Markers, ParentDir;
    var front, last := ms[..|ms| - 1], ms[|ms| - 1];
    assert ms == front + [last];
    if last != (path, m) {
      UiManifestIsRanked(front, path, m);
    }
  }

  lemma ReactServesUi()
    ensures ServesUi(Manifest({"react"}, "", {}))
  {
    hide RunsFrontend;
    var m := Manifest({"react"}, "", {});
    var marked := set d | d in m.dependencies && IsFrontendPackage(d);
    assert IsFrontendPackage("react");
    assert marked == {"react"};
  }

  /** Reading a UI manifest at the workspace root makes a start feasible. */
  lemma RootFrontendIsFeasible(s: State)
    requires "." in BrowserDirectories(s.project)
    ensures StartFeasible(s)
  {
    hide BrowserDirectories, StartCommand, NormPath;
    assert NormDirectory(".") == "." by { DotIsNormal(); }
    var preferred := BrowserDirectories(s.project);
    var i :| 0 <= i < |preferred| && preferred[i] == ".";
    assert Nameable(preferred[i]);
  }

  lemma DotIsNormal()
    ensures NormDirectory(".") == "."
  {
    assert Trimmed(".", IsSpace) && Trimmed(".", IsSlash);
    TrimTrims(".", IsSpace);
    TrimTrims(".", IsSlash);
    assert ToSlash(".") == ".";
  }

  lemma ReadingRootManifest(s: State)
    ensures var t := Observe(s, ReadFile, ReadArgs("package.json"), ReactManifest(), true);
            && t == s.(project := t.project, failure := Failure("", None))
            && t.project.listedFiles == s.project.listedFiles
            && t.project.readFiles == s.project.readFiles + {"package.json"}
            && StartFeasible(t)
  {
    hide BrowserDirectories, StartFeasible, PutManifest, NormPath, IsPackageJson;
    var t := Observe(s, ReadFile, ReadArgs("package.json"), ReactManifest(), true);
    RootManifestText();
    ReactServesUi();
    var m := Manifest({"react"}, "", {});
    PutIsRanked(s.project.packageManifests, "package.json", m);
    UiManifestIsRanked(t.project.packageManifests, "package.json", m);
    BrowserDirectoriesAreRanked(t.project, (Markers(m), "."));
    RootFrontendIsFeasible(t);
  }

  lemma ReadRootStep(base: set<Tool>, s: State)
    requires Equipped(base) && Reachable(s) && Active(s) && NeedsRuntime(s) && !s.runtime.runtimeReady
    requires ReadFile in Permitted(s, base)
    ensures CanCall(base, s, ReadFile, ReadArgs("package.json"))
    ensures var t := CallOn(s, ReadFile, ReadArgs("package.json"), ReactManifest());
            && t == s.(project := t.project, failure := Failure("", None))
            && t.project.listedFiles == s.project.listedFiles
            && s.project.readFiles <= t.project.readFiles
            && StartFeasible(t) && Reachable(t) && Owed(t) == Owed(s)
  {
    hide StartFeasible, Observe, Permitted, PhaseOf;
    ReadingRootManifest(s);
  }

  lemma StartPermitted(base: set<Tool>, s: State)
    requires Equipped(base) && (PhaseOf(s) == Discover || PhaseOf(s) == StartRuntime)
    ensures StartProcess in Permitted(s, base)
  {
    hide PhaseOf, DiagnosisOpen, HasStaticHtml, DependenciesSettled, BrowserStartSpec;
    assert Active(s) by { PhaseFacts(s); }
  }

  lemma PhaseFacts(s: State)
    ensures PhaseOf(s) in {Discover, InspectStartup, StartRuntime} <==>
              Active(s) && NeedsRuntime(s) && !s.runtime.runtimeReady
    ensures PhaseOf(s) != Complete ==> Active(s)
    ensures PhaseOf(s) == Discover ==> s.project.listedFiles == []
    ensures PhaseOf(s) in {InspectStartup, StartRuntime} ==> s.project.listedFiles != []
  {
    hide StartupCandidates, InspectedStartup;
  }

  lemma FromDiscover(base: set<Tool>, s: State)
    requires Equipped(base) && Reachable(s) && PhaseOf(s) == Discover
    ensures CompletesIn(base, s, Owed(s) + 5)
  {
    hide StartupCandidates, InspectedStartup, CompletesIn, StartFeasible, StartRuntimeTools, CallOn, CanCall, ListedNormal;
    StartPermitted(base, s);
    if StartFeasible(s) {
      FromFeasibleStart(base, s);
      MoreIsEnough(base, s, Owed(s) + 4, Owed(s) + 5);
    } else {
      ReadRootStep(base, s);
      var t := CallOn(s, ReadFile, ReadArgs("package.json"), ReactManifest());
      StartPermitted(base, t);
      FromFeasibleStart(base, t);
      OneCall(base, s, ReadFile, ReadArgs("package.json"), ReactManifest(), Owed(t) + 4);
    }
  }

  /** Reading more files never closes the startup inspection. */
  lemma InspectionIsMonotone(s: State, t: State)
    requires s.contract == t.contract && s.project.listedFiles == t.project.listedFiles
    requires s.project.readFiles <= t.project.readFiles && InspectedStartup(s)
    ensures InspectedStartup(t)
  {
    hide SortBy, StartupFiles, IsPackageJson;
  }

  lemma StaysStarting(s: State, t: State)
    requires PhaseOf(s) == StartRuntime && s.contract == t.contract
    requires t.project.listedFiles == s.project.listedFiles && s.project.readFiles <= t.project.readFiles
    requires !t.runtime.runtimeReady
    ensures PhaseOf(t) == StartRuntime
  {
    hide SortBy, StartupFiles, IsPackageJson, InspectedStartup;
    if InspectedStartup(s) {
      InspectionIsMonotone(s, t);
    }
  }

  lemma DiagnosisPermitsReading(base: set<Tool>, s: State)
    requires Equipped(base) && PhaseOf(s) == StartRuntime
    ensures DiagnosisOpen(s) ==> ReadFile in Permitted(s, base)
    ensures HasStaticHtml(s.project) ==> PreviewHtml in Permitted(s, base)
  {
    hide PhaseOf, DiagnosisOpen, HasStaticHtml, DependenciesSettled, BrowserStartSpec;
    PhaseFacts(s);
  }

  lemma FromStartRuntime(base: set<Tool>, s: State)
    requires Equipped(base) && Reachable(s) && PhaseOf(s) == StartRuntime && !DeadStart(s)
    ensures CompletesIn(base, s, Owed(s) + 5)
  {
    hide StartupCandidates, InspectedStartup, CompletesIn, StartFeasible, StartRuntimeTools, CallOn, CanCall,
         ListedNormal, Permitted, DiagnosisOpen, HasStaticHtml;
    StartPermitted(base, s);
    DiagnosisPermitsReading(base, s);
    if StartFeasible(s) {
      FromFeasibleStart(base, s);
      MoreIsEnough(base, s, Owed(s) + 4, Owed(s) + 5);
    } else if HasStaticHtml(s.project) {
      FromPreview(base, s);
      MoreIsEnough(base, s, Owed(s) + 3, Owed(s) + 5);
    } else {
      ReadRootStep(base, s);
      var t := CallOn(s, ReadFile, ReadArgs("package.json"), ReactManifest());
      StaysStarting(s, t);
      StartPermitted(base, t);
      FromFeasibleStart(base, t);
      OneCall(base, s, ReadFile, ReadArgs("package.json"), ReactManifest(), Owed(t) + 4);
    }
  }

  // ---------------------------------------------------------------- reading the startup files

  function Unread(candidates: seq<string>, read: set<string>): seq<string> {
    if candidates == [] then []
    else (if candidates[0] in read then [] else [candidates[0]]) + Unread(candidates[1..], read)
  }

  lemma {:induction false} UnreadFacts(candidates: seq<string>, read: set<string>, path: string)
    ensures |Unread(candidates, read)| <= |candidates|
    ensures path in Unread(candidates, read) <==> path in candidates && path !in read
    ensures |Unread(candidates, read + {path})| <= |Unread(candidates, read)|
    ensures path in candidates && path !in read ==> |Unread(candidates, read + {path})| < |Unread(candidates, read)|
  {
    if candidates != [] {
      UnreadFacts(candidates[1..], read, path);
      assert candidates == [candidates[0]] + candidates[1..];
    }
  }

  lemma {:induction false} StartupFilesAreListed(files: seq<string>, path: string)
    ensures path in StartupFiles(files) ==> path in files
  {
    hide IsStartupName;
    if files != [] {
      StartupFilesAreListed(files[..|files| - 1], path);
    }
  }

  lemma CandidatesAreListed(p: Project, path: string)
    ensures |StartupCandidates(p)| <= 6
    ensures path in StartupCandidates(p) ==> path in p.listedFiles
  {
    hide StartupLeq, IsStartupName;
    var files := StartupFiles(p.listedFiles);
    SortByElements(files, StartupLeq);
    StartupFilesAreListed(p.listedFiles, path);
    assert path in SortBy(files, StartupLeq) <==> path in multiset(files);
  }

  lemma UnreadMeansUninspected(s: State)
    requires PhaseOf(s) == InspectStartup
    ensures Unread(StartupCandidates(s.project), s.project.readFiles) != []
  {
    hide SortBy, StartupFiles, IsPackageJson, StartupCandidates;
    hide InspectedStartup;
    var candidates := StartupCandidates(s.project);
    if forall c :: c in candidates ==> c in s.project.readFiles {
      AllReadInspects(s);
      assert false;
    }
    var c :| c in candidates && c !in s.project.readFiles;
    UnreadFacts(candidates, s.project.readFiles, c);
  }

  lemma AllReadInspects(s: State)
    requires StartupCandidates(s.project) != []
    requires forall c :: c in StartupCandidates(s.project) ==> c in s.project.readFiles
    ensures InspectedStartup(s)
  {
    hide StartupCandidates, IsPackageJson;
    assert StartupCandidates(s.project)[0] in StartupCandidates(s.project);
  }

  function PlainRead(): Receipt { Silent() }

  /** Reading one unread candidate leaves fewer of them and changes nothing else that matters. */
  lemma ReadCandidate(base: set<Tool>, s: State, path: string)
    requires Equipped(base) && ListedNormal(s) && PhaseOf(s) == InspectStartup
    requires path in s.project.listedFiles
    ensures CanCall(base, s, ReadFile, ReadArgs(path))
    ensures var t := CallOn(s, ReadFile, ReadArgs(path), PlainRead());
            t == s.(project := s.project.(readFiles := s.project.readFiles + {path}), failure := Failure("", None))
  {
    hide StartupCandidates, InspectedStartup, NormPath, IsPackageJson, StartRuntimeTools;
  }

  lemma FeasibleIgnoresReading(s: State, t: State)
    requires StartFeasible(s) && t.contract == s.contract && t.browser == s.browser
    requires t.project.packageManifests == s.project.packageManifests
    ensures StartFeasible(t)
  {
    hide NormDirectory, Nameable, RankedFrontends, SortBy, FirstManifestIn;
  }

  lemma StillStarting(s: State, t: State)
    requires PhaseOf(s) == InspectStartup && t.contract == s.contract && t.runtime == s.runtime
    requires t.project.listedFiles == s.project.listedFiles
    ensures PhaseOf(t) == InspectStartup || PhaseOf(t) == StartRuntime
  {
    hide StartupCandidates, InspectedStartup;
  }

  lemma FromInspection(base: set<Tool>, s: State)
    requires Equipped(base) && Reachable(s) && StartFeasible(s)
    requires PhaseOf(s) == InspectStartup || PhaseOf(s) == StartRuntime
    ensures CompletesIn(base, s, |Unread(StartupCandidates(s.project), s.project.readFiles)| + Owed(s) + 5)
    decreases |Unread(StartupCandidates(s.project), s.project.readFiles)|
  {
    hide StartupCandidates, InspectedStartup, CompletesIn, StartFeasible, CallOn, CanCall, PhaseOf, Unread;
    var candidates := StartupCandidates(s.project);
    var unread := Unread(candidates, s.project.readFiles);
    if PhaseOf(s) == StartRuntime {
      FromStartRuntime(base, s);
      MoreIsEnough(base, s, Owed(s) + 5, |unread| + Owed(s) + 5);
    } else {
      UnreadMeansUninspected(s);
      var path := unread[0];
      UnreadFacts(candidates, s.project.readFiles, path);
      CandidatesAreListed(s.project, path);
      ReadCandidate(base, s, path);
      var t := CallOn(s, ReadFile, ReadArgs(path), PlainRead());
      SameListing(s.project, t.project);
      FeasibleIgnoresReading(s, t);
      StillStarting(s, t);
      FromInspection(base, t);
      MoreIsEnough(base, t, |Unread(candidates, t.project.readFiles)| + Owed(t) + 5, |unread| + Owed(s) + 4);
      OneCall(base, s, ReadFile, ReadArgs(path), PlainRead(), |unread| + Owed(s) + 4);
    }
  }

  lemma SameListing(p: Project, q: Project)
    requires p.listedFiles == q.listedFiles
    ensures StartupCandidates(p) == StartupCandidates(q)
  {
  }

  lemma FromInspectStartup(base: set<Tool>, s: State)
    requires Equipped(base) && Reachable(s) && PhaseOf(s) == InspectStartup
    ensures CompletesIn(base, s, Owed(s) + 12)
  {
    hide StartupCandidates, InspectedStartup, CompletesIn, StartFeasible, CallOn, CanCall, PhaseOf, Unread,
         StartRuntimeTools;
    PhaseFacts(s);
    var t := s;
    if !StartFeasible(s) {
      assert ReadFile in Permitted(s, base);
      ReadRootStep(base, s);
      t := CallOn(s, ReadFile, ReadArgs("package.json"), ReactManifest());
      StillStarting(s, t);
    }
    var unread := Unread(StartupCandidates(t.project), t.project.readFiles);
    UnreadFacts(StartupCandidates(t.project), t.project.readFiles, "");
    CandidatesAreListed(t.project, "");
    FromInspection(base, t);
    MoreIsEnough(base, t, |unread| + Owed(t) + 5, Owed(s) + 11);
    if StartFeasible(s) {
      MoreIsEnough(base, s, Owed(s) + 11, Owed(s) + 12);
    } else {
      OneCall(base, s, ReadFile, ReadArgs("package.json"), ReactManifest(), Owed(s) + 11);
    }
  }

  /** Outside the two dead ends completion is at most screenshotCount + 12 calls away. */
  lemma LiveStatesComplete(base: set<Tool>, s: State)
    requires Equipped(base) && Reachable(s) && !DeadPublish(s) && !DeadStart(s)
    ensures CompletesIn(base, s, s.contract.screenshotCount + 12)
  {
    hide CompletesIn, StartFeasible, ListedNormal, DeadPublish, DeadStart, StartupCandidates, InspectedStartup;
    var n := match PhaseOf(s)
      case Discover => Owed(s) + 5
      case InspectStartup => Owed(s) + 12
      case StartRuntime => Owed(s) + 5
      case Publish => 1
      case Complete => 0
      case _ => Owed(s) + 3;
    match PhaseOf(s) {
      case Discover => FromDiscover(base, s);
      case InspectStartup => FromInspectStartup(base, s);
      case StartRuntime => FromStartRuntime(base, s);
      case Publish => FromPublish(base, s);
      case Complete => Done(base, s);
      case _ => FromBrowserPhases(base, s);
    }
    MoreIsEnough(base, s, n, s.contract.screenshotCount + 12);
  }

  // ---------------------------------------------------------------- the dead ends are absorbing

  /** In a dead publication nothing but lifecycle tools can still be called. */
  ghost predicate StuckPublish(rs: RunState) {
    DeadPublish(rs.coord) && forall tool :: tool in rs.allowed ==> Lifecycle(tool) || tool == PublishOutput
  }

  lemma PublishSurface(s: State, base: set<Tool>, tool: Tool)
    requires PhaseOf(s) == Publish && tool in Permitted(s, base)
    ensures Lifecycle(tool) || tool == PublishOutput
  {
    hide StartupCandidates, InspectedStartup, StartRuntimeTools;
  }

  lemma EmptySelectionRejected(s: State, args: Args)
    requires DeadPublish(s)
    ensures Validate(s, PublishOutput, args) != Accepted
  {
    hide StartupCandidates, InspectedStartup;
  }

  lemma StuckPublishStays(base: set<Tool>, rs: RunState, e: Event)
    requires StuckPublish(rs) && Enabled(rs, e)
    ensures StuckPublish(Next(base, rs, e))
  {
    hide Validate, Observe, Rewrite, Permitted, StartupCandidates, InspectedStartup;
    match e {
      case Turn =>
        forall tool | tool in Permitted(rs.coord, base)
          ensures Lifecycle(tool) || tool == PublishOutput
        {
          PublishSurface(rs.coord, base, tool);
        }
      case Call(tool, raw, r, ok) =>
        EmptySelectionRejected(rs.coord, Rewrite(rs.coord, tool, raw));
        LateCallKeepsEvidence(rs.coord, tool, Rewrite(rs.coord, tool, raw), r, ok);
    }
  }

  /** Tools that can be called in a dead start and leave it dead. */
  predicate Idle(tool: Tool) {
    Lifecycle(tool) || tool in WRITE_TOOLS || tool in COMMANDS || tool == InstallDependencies || tool == StartProcess
  }

  ghost predicate StuckStart(rs: RunState) {
    DeadStart(rs.coord) && forall tool :: tool in rs.allowed ==> Idle(tool)
  }

  lemma DeadStartSurface(s: State, base: set<Tool>, tool: Tool)
    requires DeadStart(s) && tool in Permitted(s, base)
    ensures Idle(tool)
  {
    hide PhaseOf, DiagnosisOpen, HasStaticHtml, DependenciesSettled, BrowserStartSpec, StartFeasible;
    PhaseFacts(s);
  }

  lemma IdleCallChangesLittle(s: State, tool: Tool, args: Args, r: Receipt, ok: bool)
    requires Idle(tool) && tool != StartProcess && s.contract.requireBrowser
    ensures var t := Observe(s, tool, args, r, ok);
            && t == s.(project := t.project, failure := t.failure)
            && t.project == s.project.(dependencyDirectoriesChecked := t.project.dependencyDirectoriesChecked)
            && t.failure.lastFailureTool != Some(StartProcess)
  {
    hide NormDirectory, ObserveStart, ObservePreview, ObserveOpen, ObservePage, ObserveScreenshot, ReviewImages,
      ReadProjectFile, ListedPaths, MentionsRefusal, ServerDirectories, NormPath, Lower;
    if ok {
      match tool {
        case InstallDependencies =>
        case _ =>
      }
    }
  }

  lemma DeadStartKept(s: State, t: State)
    requires DeadStart(s)
    requires t == s.(project := t.project, failure := t.failure)
    requires t.project == s.project.(dependencyDirectoriesChecked := t.project.dependencyDirectoriesChecked)
    requires t.failure.lastFailureTool != Some(StartProcess)
    ensures DeadStart(t)
  {
    hide RankedFrontends, SortBy, StartupFiles, NormDirectory, Nameable, FirstManifestIn, IsPackageJson, CompanionSpec,
         IsHtml;
    SameListing(s.project, t.project);
    SameManifests(s, t);
    SamePhase(s, t);
  }

  lemma SameManifests(s: State, t: State)
    requires t.contract == s.contract && t.browser == s.browser
    requires t.project.packageManifests == s.project.packageManifests
    ensures StartFeasible(t) == StartFeasible(s)
  {
    if StartFeasible(s) {
      FeasibleIgnoresReading(s, t);
    }
    if StartFeasible(t) {
      FeasibleIgnoresReading(t, s);
    }
  }

  lemma SamePhase(s: State, t: State)
    requires t == s.(project := t.project, failure := t.failure)
    requires t.project == s.project.(dependencyDirectoriesChecked := t.project.dependencyDirectoriesChecked)
    ensures PhaseOf(t) == PhaseOf(s)
  {
    hide IsPackageJson;
    SameListing(s.project, t.project);
  }

  lemma StuckStartStays(base: set<Tool>, rs: RunState, e: Event)
    requires StuckStart(rs) && Enabled(rs, e)
    ensures StuckStart(Next(base, rs, e))
  {
    hide Validate, Observe, Rewrite, Permitted, DeadStart, StartFeasible, Idle;
    match e {
      case Turn =>
        forall tool | tool in Permitted(rs.coord, base)
          ensures Idle(tool)
        {
          DeadStartSurface(rs.coord, base, tool);
        }
      case Call(tool, raw, r, ok) =>
        DeadStartFacts(rs.coord);
        InfeasibleStartRejected(rs.coord, raw);
        IdleCallChangesLittle(rs.coord, tool, Rewrite(rs.coord, tool, raw), r, ok);
        DeadStartKept(rs.coord, Observe(rs.coord, tool, Rewrite(rs.coord, tool, raw), r, ok));
    }
  }

  lemma DeadStartFacts(s: State)
    requires DeadStart(s)
    ensures Active(s) && !StartFeasible(s) && s.contract.requireBrowser && PhaseOf(s) != Complete
  {
    hide PhaseOf, BrowserDirectories, BrowserStartSpec, DiagnosisOpen, HasStaticHtml;
    PhaseFacts(s);
  }

  lemma {:induction false} StuckNeverCompletes(base: set<Tool>, rs: RunState, es: seq<Event>)
    requires (StuckPublish(rs) || StuckStart(rs)) && Gated(base, rs, es)
    ensures PhaseOf(After(base, rs, es).coord) != Complete
    decreases |es|
  {
    hide Validate, Observe, Rewrite, Permitted, PhaseOf, StartFeasible, Idle, DiagnosisOpen, HasStaticHtml, Enabled;
    if es != [] {
      if StuckPublish(rs) {
        StuckPublishStays(base, rs, es[0]);
      } else {
        StuckStartStays(base, rs, es[0]);
      }
      StuckNeverCompletes(base, Next(base, rs, es[0]), es[1..]);
    } else if StuckStart(rs) {
      DeadStartFacts(rs.coord);
    }
  }

  // ---------------------------------------------------------------- the theorem

  /** Some gated run of at most `n` calls ends in Complete; it may begin with calls of the running turn. */
  ghost predicate Completable(base: set<Tool>, rs: RunState, n: nat) {
    exists es :: Calls(es) <= n && Gated(base, rs, es) && PhaseOf(After(base, rs, es).coord) == Complete
  }

  function Calls(es: seq<Event>): nat { if es == [] then 0 else (if es[0].Call? then 1 else 0) + Calls(es[1..]) }

  /** Every successful review of the run is fair where it happens. */
  ghost predicate FairRun(base: set<Tool>, rs: RunState, es: seq<Event>)
    decreases |es|
  {
    es == [] || ((es[0].Call? && es[0].ok ==> Fair(rs.coord, es[0].tool, es[0].receipt))
                 && FairRun(base, Next(base, rs, es[0]), es[1..]))
  }

  /** Completable with fair receipts only. */
  ghost predicate FairlyCompletable(base: set<Tool>, rs: RunState, n: nat) {
    exists es :: Calls(es) <= n && Gated(base, rs, es) && FairRun(base, rs, es)
                 && PhaseOf(After(base, rs, es).coord) == Complete
  }

  lemma OneFairEvent(base: set<Tool>, rs: RunState, e: Event, es: seq<Event>)
    ensures FairRun(base, rs, [e] + es)
            <==> (e.Call? && e.ok ==> Fair(rs.coord, e.tool, e.receipt)) && FairRun(base, Next(base, rs, e), es)
    ensures Calls([e] + es) == Calls(es) + if e.Call? then 1 else 0
  {
    hide Next, Fair;
    assert ([e] + es)[1..] == es;
  }

  lemma {:induction false} EventsFor(base: set<Tool>, rs: RunState, n: nat) returns (es: seq<Event>)
    requires CompletesIn(base, rs.coord, n)
    ensures Calls(es) <= n && Gated(base, rs, es) && FairRun(base, rs, es)
    ensures PhaseOf(After(base, rs, es).coord) == Complete
    decreases n
  {
    hide PhaseOf, Permitted, Validate, Observe, Rewrite, Fair;
    es := [];
    if PhaseOf(rs.coord) != Complete {
      var tool, raw, r :|
        CanCall(base, rs.coord, tool, raw) && Fair(rs.coord, tool, r)
        && CompletesIn(base, CallOn(rs.coord, tool, raw, r), n - 1);
      var call := Call(tool, raw, r, true);
      var r1 := Next(base, rs, Turn);
      var rest := EventsFor(base, Next(base, r1, call), n - 1);
      OneEvent(base, r1, call, rest);
      OneFairEvent(base, r1, call, rest);
      OneEvent(base, rs, Turn, [call] + rest);
      OneFairEvent(base, rs, Turn, [call] + rest);
      es := [Turn] + ([call] + rest);
    }
  }

  lemma {:induction false} ListingIsNormal(lines: seq<string>)
    ensures forall path :: path in ListedPaths(lines) ==> path != "" && NormPath(path) == path
  {
    hide NormPath;
    if lines != [] {
      ListingIsNormal(lines[..|lines| - 1]);
      NormPathIdempotent(lines[|lines| - 1]);
    }
  }

  lemma ObserveKeepsListing(s: State, tool: Tool, args: Args, r: Receipt, ok: bool)
    requires ListedNormal(s)
    ensures ListedNormal(Observe(s, tool, args, r, ok))
  {
    hide NormPath, ListedPaths, NormDirectory, PageRuntime, PageBrowser, SeeUrl, SeeTargets, AddCapture;
    ListingIsNormal(r.lines);
  }

  lemma {:induction false} RunKeepsListing(base: set<Tool>, rs: RunState, es: seq<Event>)
    requires ListedNormal(rs.coord)
    ensures ListedNormal(After(base, rs, es).coord)
    ensures After(base, rs, es).coord.contract == rs.coord.contract
    decreases |es|
  {
    hide Observe, Rewrite, Permitted, ListedNormal;
    if es != [] {
      if es[0].Call? {
        var args := Rewrite(rs.coord, es[0].tool, es[0].raw);
        ObserveKeepsListing(rs.coord, es[0].tool, args, es[0].receipt, es[0].ok);
        ContractIsFixed(rs.coord, es[0].tool, args, es[0].receipt, es[0].ok);
      }
      RunKeepsListing(base, Next(base, rs, es[0]), es[1..]);
    }
  }

  lemma RunsReachReachable(base: set<Tool>, contract: Contract, es: seq<Event>)
    requires SoundContract(contract) && Pending(base, Begin(contract), es)
    ensures Reachable(After(base, Begin(contract), es).coord)
  {
    hide Observe, Rewrite, Permitted, Validate, PhaseOf, Evidence;
    RunKeepsListing(base, Begin(contract), es);
    ReviewCoversEverything(base, contract, es);
  }

  // ---------------------------------------------------------------- what the running turn still permits

  /** Tools that lead out of a start dead end while the surface of an earlier turn still holds them. */
  const RESCUES: set<Tool> := {ListFiles, ReadFile, PreviewHtml}

  /** A dead end whose running turn holds no tool that leads out of it. */
  predicate Doomed(rs: RunState) {
    || (DeadPublish(rs.coord) && InspectImages !in rs.allowed)
    || (DeadStart(rs.coord) && rs.allowed !! RESCUES)
  }

  /** One call of the running turn, then calls in turns of their own. */
  lemma CallFirst(base: set<Tool>, rs: RunState, call: Event, n: nat)
    requires call.Call? && Enabled(rs, call) && CompletesIn(base, Next(base, rs, call).coord, n)
    requires Fair(rs.coord, call.tool, call.receipt)
    ensures FairlyCompletable(base, rs, n + 1)
  {
    hide CompletesIn, Observe, Rewrite, Validate, Permitted, PhaseOf, Fair;
    var rest := EventsFor(base, Next(base, rs, call), n);
    OneEvent(base, rs, call, rest);
    OneFairEvent(base, rs, call, rest);
  }

  lemma Fewer(base: set<Tool>, rs: RunState, n: nat, m: nat)
    requires FairlyCompletable(base, rs, n) && n <= m
    ensures FairlyCompletable(base, rs, m)
  {
    hide Gated, After, PhaseOf, FairRun, Calls;
  }

  lemma FreeCalls(s: State, tool: Tool, raw: Args)
    requires tool in RESCUES
    ensures Rewrite(s, tool, raw) == raw && Validate(s, tool, raw) == Accepted
  {
    hide RewriteReview, RewritePublish, RewriteOpen, RewriteInspect, RewriteSession, RewriteStart, RewriteInstall,
      ValidateStart, NormUrl, ManifestDirectories, Active, NeedsRuntime;
  }

  lemma SelectingReview(s: State, args: Args)
    requires DeadPublish(s)
    ensures Validate(s, InspectImages, args) == Accepted
    ensures var t := Observe(s, InspectImages, args, GoodReview(s), true); PhaseOf(t) == Publish && !DeadPublish(t)
  {
    hide Observe, GoodReview;
    GoodReviewReviews(s, args);
    assert PhaseOf(Observe(s, InspectImages, args, GoodReview(s), true)) == Publish by {
      hide PhaseOf;
      ReviewedPhase(s, Observe(s, InspectImages, args, GoodReview(s), true));
    }
    hide StartupCandidates, InspectedStartup;
  }

  /** A second review of the same turn revives a dead publication. */
  lemma ReviewRescues(base: set<Tool>, rs: RunState)
    requires Equipped(base) && DeadPublish(rs.coord) && InspectImages in rs.allowed
    ensures FairlyCompletable(base, rs, 2)
  {
    hide Observe, Rewrite, Validate, Permitted, PhaseOf, DeadPublish, CompletesIn;
    var call := Call(InspectImages, map[], GoodReview(rs.coord), true);
    SelectingReview(rs.coord, Rewrite(rs.coord, InspectImages, map[]));
    GoodReviewSelects(rs.coord);
    FromPublish(base, Next(base, rs, call).coord);
    CallFirst(base, rs, call, 1);
  }

  function ListedPage(): Receipt { Silent().(lines := ["a.html"]) }

  lemma OneLine(path: string)
    requires path != "" && NormPath(path) == path && path[|path| - 1] != '/'
    ensures ListedPaths([path]) == [path]
  {
    hide NormPath;
    assert [path][..0] == [] && ListedPaths([]) == [];
  }

  lemma ListingFindsPage(s: State)
    ensures var t := Observe(s, ListFiles, map[], ListedPage(), true);
            t == s.(project := s.project.(listedFiles := ["a.html"]), failure := Failure("", None))
            && HasStaticHtml(t.project)
  {
    hide NormPath, ListedPaths;
    PlainName("a.html");
    OneLine("a.html");
    assert "a.html"[1..] == ".html" && Lower("a.html") == "a.html";
    assert IsHtml("a.html");
    assert ["a.html"][0] == "a.html";
  }

  /** From an unready state that is not a dead start, a rescued run completes like any other. */
  lemma RescuedIsLive(base: set<Tool>, s: State, t: State)
    requires Equipped(base) && Reachable(s) && DeadStart(s) && ListedNormal(t) && !DeadStart(t)
    requires t.contract == s.contract && t.review == s.review
    requires t.gallery == s.gallery
    ensures CompletesIn(base, t, s.contract.screenshotCount + 12)
  {
    hide CompletesIn, StartupCandidates, InspectedStartup, StartFeasible, ListedNormal, DiagnosisOpen, HasStaticHtml;
    assert !s.review.visualReviewed;
    LiveStatesComplete(base, t);
  }

  lemma RescueStep(s: State, tool: Tool)
    requires tool in RESCUES && DeadStart(s) && ListedNormal(s)
    ensures var (raw, r) := Rescue(tool);
            var t := Observe(s, tool, raw, r, true);
            && t.contract == s.contract && t.review == s.review && t.gallery == s.gallery
            && ListedNormal(t) && !DeadStart(t)
  {
    hide Observe, StartFeasible, HasStaticHtml, DiagnosisOpen, StartupCandidates, InspectedStartup;
    ObserveKeepsListing(s, tool, Rescue(tool).0, Rescue(tool).1, true);
    if tool == ListFiles {
      ListingFindsPage(s);
    } else if tool == ReadFile {
      ReadingRootManifest(s);
    } else {
      GoodPreviewOpens(s, map[]);
    }
  }

  function Rescue(tool: Tool): (Args, Receipt)
    requires tool in RESCUES
  {
    if tool == ListFiles then (map[], ListedPage())
    else if tool == ReadFile then (ReadArgs("package.json"), ReactManifest())
    else (map[], GoodPreview())
  }

  /** Listing, reading or previewing within the turn revives a dead start. */
  lemma StartIsRescued(base: set<Tool>, rs: RunState, tool: Tool)
    requires Equipped(base) && Reachable(rs.coord) && DeadStart(rs.coord) && tool in RESCUES && tool in rs.allowed
    ensures FairlyCompletable(base, rs, rs.coord.contract.screenshotCount + 13)
  {
    hide Observe, Rewrite, Validate, Permitted, PhaseOf, DeadStart, CompletesIn, ListedNormal, Evidence, SoundContract;
    var (raw, r) := Rescue(tool);
    var call := Call(tool, raw, r, true);
    FreeCalls(rs.coord, tool, raw);
    RescueStep(rs.coord, tool);
    RescuedIsLive(base, rs.coord, Next(base, rs, call).coord);
    CallFirst(base, rs, call, rs.coord.contract.screenshotCount + 12);
  }

  // ---------------------------------------------------------------- a doomed run is stuck

  predicate KeepsOpen(tool: Tool) { tool != PreviewHtml && tool != BrowserOpen }

  /**
   * The surface of a browser task, at any moment of a turn: it holds a rescue, or nothing but idle tools, or the
   * browser is open and no tool of the surface can close it.
   */
  ghost predicate SurfaceShape(rs: RunState) {
    rs.coord.contract.requireBrowser ==>
      || rs.allowed * RESCUES != {}
      || (forall tool :: tool in rs.allowed ==> Idle(tool))
      || (rs.coord.browser.browserOpened && forall tool :: tool in rs.allowed ==> KeepsOpen(tool))
  }

  lemma OpenStaysOpen(s: State, tool: Tool, args: Args, r: Receipt, ok: bool)
    requires KeepsOpen(tool)
    ensures s.browser.browserOpened ==> Observe(s, tool, args, r, ok).browser.browserOpened
  {
    hide Classify, CriticalErrors, AddCapture, ServerDirectories, NormPath, Lower, StartedUrl, ReviewImages,
      ReadProjectFile, ListedPaths, NoteInstall, NoteProcess, PageRuntime, MentionsRefusal, ObserveStart, ObservePage,
      ObserveScreenshot, ObserveFailure;
    if ok {
      OpenKept(s.(failure := Failure("", None)), args, r);
    } else {
      assert ObserveFailure(s, tool, args, r.text).browser == s.browser by { FailureKeepsBrowser(s, tool, args, r.text); }
    }
  }

  lemma FailureKeepsBrowser(s: State, tool: Tool, args: Args, text: string)
    ensures ObserveFailure(s, tool, args, text).browser == s.browser
  {
    hide ServerDirectories, NormPath, Lower, MentionsRefusal;
  }

  /** Starts, looks at the page and screenshots leave an open browser open. */
  lemma OpenKept(s: State, args: Args, r: Receipt)
    ensures s.browser.browserOpened ==>
      && ObserveStart(s, args, r).browser.browserOpened
      && ObserveScreenshot(s, r).browser.browserOpened
      && ObservePage(s, r, false).browser.browserOpened && ObservePage(s, r, true).browser.browserOpened
  {
    hide Classify, CriticalErrors, AddCapture, StartedUrl, NoteProcess, PageRuntime;
  }

  lemma EarlyPhaseSurface(s: State, base: set<Tool>)
    requires Equipped(base) && PhaseOf(s) in {Discover, InspectStartup, OpenBrowser}
    ensures Permitted(s, base) * RESCUES != {}
  {
    hide PhaseOf;
    PhaseFacts(s);
    if PhaseOf(s) == OpenBrowser {
      assert PreviewHtml in Permitted(s, base) * RESCUES;
    } else {
      assert ReadFile in Permitted(s, base) * RESCUES;
    }
  }

  lemma StartSurface(s: State, base: set<Tool>)
    requires Equipped(base) && PhaseOf(s) == StartRuntime
    ensures Permitted(s, base) * RESCUES != {} || forall tool :: tool in Permitted(s, base) ==> Idle(tool)
  {
    hide PhaseOf, DiagnosisOpen, HasStaticHtml, DependenciesSettled, BrowserStartSpec;
    PhaseFacts(s);
    DiagnosisPermitsReading(base, s);
    if DiagnosisOpen(s) {
      assert ReadFile in Permitted(s, base) * RESCUES;
    } else if HasStaticHtml(s.project) {
      assert PreviewHtml in Permitted(s, base) * RESCUES;
    }
  }

  lemma OpenPhaseSurface(s: State, base: set<Tool>, tool: Tool)
    requires PhaseOf(s) in {InspectBrowser, Capture, VisualReview, Publish} && tool in Permitted(s, base)
    ensures KeepsOpen(tool) && (s.contract.requireBrowser ==> s.browser.browserOpened)
  {
    hide StartupCandidates, InspectedStartup, StartRuntimeTools;
  }

  lemma StepKeepsShape(base: set<Tool>, rs: RunState, e: Event)
    requires Equipped(base) && SurfaceShape(rs) && PhaseOf(rs.coord) != Complete && Enabled(rs, e)
    ensures SurfaceShape(Next(base, rs, e))
  {
    hide Observe, Rewrite, Validate, Permitted, PhaseOf, Idle, KeepsOpen;
    match e {
      case Turn =>
        if PhaseOf(rs.coord) in {Discover, InspectStartup, OpenBrowser} {
          EarlyPhaseSurface(rs.coord, base);
        } else if PhaseOf(rs.coord) == StartRuntime {
          StartSurface(rs.coord, base);
        } else {
          OpenPhase(rs.coord, base);
        }
      case Call(tool, raw, r, ok) =>
        var args := Rewrite(rs.coord, tool, raw);
        ContractIsFixed(rs.coord, tool, args, r, ok);
        if KeepsOpen(tool) {
          OpenStaysOpen(rs.coord, tool, args, r, ok);
        }
    }
  }

  lemma OpenPhase(s: State, base: set<Tool>)
    requires PhaseOf(s) in {InspectBrowser, Capture, VisualReview, Publish}
    ensures s.contract.requireBrowser ==> s.browser.browserOpened
    ensures forall tool :: tool in Permitted(s, base) ==> KeepsOpen(tool)
  {
    hide Permitted, KeepsOpen;
    assert s.contract.requireBrowser ==> s.browser.browserOpened by { hide StartupCandidates, InspectedStartup; }
    forall tool | tool in Permitted(s, base)
      ensures KeepsOpen(tool)
    {
      OpenPhaseSurface(s, base, tool);
    }
  }

  lemma {:induction false} PendingKeepsShape(base: set<Tool>, rs: RunState, es: seq<Event>)
    requires Equipped(base) && SurfaceShape(rs) && Pending(base, rs, es)
    ensures SurfaceShape(After(base, rs, es))
    decreases |es|
  {
    hide Observe, Rewrite, Validate, Permitted, PhaseOf, SurfaceShape, Enabled;
    if es != [] {
      StepKeepsShape(base, rs, es[0]);
      PendingKeepsShape(base, Next(base, rs, es[0]), es[1..]);
    }
  }

  lemma DeadStartIsUnopened(s: State)
    requires DeadStart(s)
    ensures !s.browser.browserOpened && s.contract.requireBrowser
  {
    hide PhaseOf, BrowserDirectories, BrowserStartSpec, DiagnosisOpen, HasStaticHtml;
  }

  lemma DoomedIsStuck(rs: RunState)
    requires Doomed(rs) && SurfaceShape(rs) && ReviewInv(rs)
    ensures StuckPublish(rs) || StuckStart(rs)
  {
    hide DeadStart, Idle, Evidence, SurfaceInv;
    if DeadStart(rs.coord) && rs.allowed !! RESCUES {
      DeadStartIsUnopened(rs.coord);
    } else {
      hide StartupCandidates, InspectedStartup;
      assert rs.coord.review.visualReviewed;
    }
  }

  /**
   * From every moment of a gated run before its first completion, the running turn's surface included, completion is
   * reachable by further gated calls exactly when the run is not doomed: it stands in no dead end, or the surface
   * still holds a tool that leads out. Then screenshotCount + 13 calls with some fair receipts suffice; a doomed run
   * is completed by no receipts whatever.
   */
  lemma CompletionIsReachableUnlessDoomed(base: set<Tool>, contract: Contract, es: seq<Event>)
    requires Equipped(base) && SoundContract(contract) && Pending(base, Begin(contract), es)
    ensures var rs := After(base, Begin(contract), es);
            && (!Doomed(rs) ==> FairlyCompletable(base, rs, contract.screenshotCount + 13))
            && (Doomed(rs) ==> forall n :: !Completable(base, rs, n))
  {
    hide Observe, Rewrite, Permitted, Validate, PhaseOf, Evidence, DeadStart, DeadPublish, CompletesIn, Enabled,
      Reachable, SurfaceShape, ReviewInv, Completable, FairlyCompletable;
    var rs := After(base, Begin(contract), es);
    RunsReachReachable(base, contract, es);
    RunKeepsListing(base, Begin(contract), es);
    if Doomed(rs) {
      BeginsInShape(contract);
      PendingKeepsShape(base, Begin(contract), es);
      PendingKeepsReview(base, Begin(contract), es);
      DoomedIsStuck(rs);
      StuckIsForever(base, rs);
    } else {
      NotDoomedCompletes(base, rs);
    }
  }

  lemma BeginsInShape(contract: Contract)
    ensures SurfaceShape(Begin(contract)) && ReviewInv(Begin(contract))
  {
  }

  lemma StuckIsForever(base: set<Tool>, rs: RunState)
    requires StuckPublish(rs) || StuckStart(rs)
    ensures forall n :: !Completable(base, rs, n)
  {
    hide StuckPublish, StuckStart, PhaseOf;
    forall more | Gated(base, rs, more)
      ensures PhaseOf(After(base, rs, more).coord) != Complete
    {
      StuckNeverCompletes(base, rs, more);
    }
  }

  lemma NotDoomedCompletes(base: set<Tool>, rs: RunState)
    requires Equipped(base) && Reachable(rs.coord) && !Doomed(rs)
    ensures FairlyCompletable(base, rs, rs.coord.contract.screenshotCount + 13)
  {
    hide Reachable, DeadStart, DeadPublish, PhaseOf, CompletesIn, FairlyCompletable;
    var n := rs.coord.contract.screenshotCount;
    if DeadPublish(rs.coord) {
      ReviewRescues(base, rs);
      Fewer(base, rs, 2, n + 13);
    } else if DeadStart(rs.coord) {
      var tool :| tool in rs.allowed && tool in RESCUES;
      StartIsRescued(base, rs, tool);
    } else {
      LiveStatesComplete(base, rs.coord);
      FromNextTurn(base, rs, n + 12);
      Fewer(base, rs, n + 12, n + 13);
    }
  }

  lemma FromNextTurn(base: set<Tool>, rs: RunState, n: nat)
    requires CompletesIn(base, rs.coord, n)
    ensures FairlyCompletable(base, rs, n)
  {
    hide CompletesIn, PhaseOf;
    var more := EventsFor(base, rs, n);
  }
}
