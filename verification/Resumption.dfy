/** Exactly which restored states let a resumed action keep a review that no longer covers its captures. */
module Resumption {
  import opened Text
  import opened Fingerprints
  import opened Workflow
  import opened GatedRuns
  import opened Completion
  import opened Progress

  /** A review is in force although some captured image was not in the last evaluation. */
  ghost predicate Unreviewed(rs: RunState) {
    rs.coord.review.visualReviewed && !AllIn(rs.coord.gallery.capturedPaths, rs.evaluated)
  }

  /** Some gated run from here, no further than its first Complete, leaves a capture unreviewed. */
  ghost predicate Breaks(base: set<Tool>, rs: RunState) {
    exists es :: Pending(base, rs, es) && Unreviewed(After(base, rs, es))
  }

  /** What the lemmas below keep along a run: a review in force for a browser task, with a listing as observed. */
  ghost predicate Restored(s: State) {
    s.review.visualReviewed && s.contract.requireBrowser && ListedNormal(s)
  }

  lemma BreaksAfterCall(base: set<Tool>, rs: RunState, tool: Tool, raw: Args, r: Receipt, ok: bool)
    requires PhaseOf(rs.coord) != Complete && CanCall(base, rs.coord, tool, raw)
    requires Breaks(base, Next(base, Next(base, rs, Turn), Call(tool, raw, r, ok)))
    ensures Breaks(base, rs)
  {
    hide PhaseOf, Permitted, Validate, Observe, Rewrite, Unreviewed;
    var turn, call := Next(base, rs, Turn), Call(tool, raw, r, ok);
    var es :| Pending(base, Next(base, turn, call), es) && Unreviewed(After(base, Next(base, turn, call), es));
    OneEvent(base, turn, call, es);
    OneEvent(base, rs, Turn, [call] + es);
  }

  lemma BreaksNow(base: set<Tool>, rs: RunState)
    requires Unreviewed(rs)
    ensures Breaks(base, rs)
  {
    hide Unreviewed;
    assert Pending(base, rs, []) && After(base, rs, []) == rs;
  }

  lemma NextOfTurn(base: set<Tool>, rs: RunState, tool: Tool, raw: Args, r: Receipt)
    ensures Next(base, Next(base, rs, Turn), Call(tool, raw, r, true)).coord == CallOn(rs.coord, tool, raw, r)
  {
    hide Observe, Rewrite, Permitted;
  }

  // ---------------------------------------------------------------- a capture nobody evaluated

  lemma {:induction false} LongestOf(names: set<string>) returns (n: nat)
    ensures forall x :: x in names ==> |x| <= n
  {
    n := 0;
    if names != {} {
      var x :| x in names;
      n := LongestOf(names - {x});
      n := if |x| > n then |x| else n;
    }
  }

  lemma NewName(names: set<string>) returns (name: string)
    ensures name != "" && name !in names
  {
    var n := LongestOf(names);
    name := Repeat('a', n + 1);
    assert |name| == n + 1;
  }

  function PreviewShot(name: string): Receipt {
    Silent().(browserOpened := Some(true), verificationPassed := true, screenshotPath := name)
  }

  lemma CaptureAdds(g: Gallery, name: string)
    requires name != "" && name !in g.capturedPaths
    ensures AddCapture(g, name, "", "") == g.(capturedPaths := g.capturedPaths + [name])
  {
    hide Fold, PerceptuallyDuplicate;
    NoFingerprint(g.capturedPerceptualHashes);
  }

  /** Where a preview or a screenshot can be made, the review is outrun at once. */
  lemma ShotBreaks(base: set<Tool>, rs: RunState, tool: Tool)
    requires rs.coord.review.visualReviewed && PhaseOf(rs.coord) != Complete
    requires tool in {PreviewHtml, BrowserScreenshot} && CanCall(base, rs.coord, tool, map[])
    ensures Breaks(base, rs)
  {
    hide PhaseOf, CanCall, AddCapture, Rewrite;
    var name := NewName(rs.evaluated + set path | path in rs.coord.gallery.capturedPaths);
    CaptureAdds(rs.coord.gallery, name);
    var next := Next(base, Next(base, rs, Turn), Call(tool, map[], PreviewShot(name), true));
    assert next.coord.gallery.capturedPaths == rs.coord.gallery.capturedPaths + [name] by {
      ShotAdds(rs.coord, tool, Rewrite(rs.coord, tool, map[]), name);
    }
    assert next.coord.review == rs.coord.review by {
      ReviewOnlyByEvaluation(rs.coord, tool, Rewrite(rs.coord, tool, map[]), PreviewShot(name), true);
      ContractIsFixed(rs.coord, tool, Rewrite(rs.coord, tool, map[]), PreviewShot(name), true);
    }
    assert name in next.coord.gallery.capturedPaths && name !in next.evaluated;
    BreaksNow(base, next);
    BreaksAfterCall(base, rs, tool, map[], PreviewShot(name), true);
  }

  lemma ShotAdds(s: State, tool: Tool, args: Args, name: string)
    requires tool in {PreviewHtml, BrowserScreenshot} && name != "" && name !in s.gallery.capturedPaths
    ensures Observe(s, tool, args, PreviewShot(name), true).gallery
            == s.gallery.(capturedPaths := s.gallery.capturedPaths + [name])
  {
    hide AddCapture;
    CaptureAdds(s.gallery, name);
  }

  lemma CapturePhaseBreaks(base: set<Tool>, rs: RunState)
    requires Equipped(base) && Restored(rs.coord) && PhaseOf(rs.coord) == Capture
    ensures Breaks(base, rs)
  {
    assert CanCall(base, rs.coord, BrowserScreenshot, map[]) by {
      hide StartupCandidates, InspectedStartup, StartRuntimeTools, Rewrite;
    }
    hide PhaseOf, CanCall;
    ShotBreaks(base, rs, BrowserScreenshot);
  }

  lemma PreviewBreaks(base: set<Tool>, rs: RunState)
    requires rs.coord.review.visualReviewed && PhaseOf(rs.coord) != Complete
    requires PreviewHtml in Permitted(rs.coord, base)
    ensures Breaks(base, rs)
  {
    hide PhaseOf, Permitted;
    FreeCalls(rs.coord, PreviewHtml, map[]);
    ShotBreaks(base, rs, PreviewHtml);
  }

  lemma OpenPhaseBreaks(base: set<Tool>, rs: RunState)
    requires Equipped(base) && rs.coord.review.visualReviewed && PhaseOf(rs.coord) == OpenBrowser
    ensures Breaks(base, rs)
  {
    assert PreviewHtml in Permitted(rs.coord, base) by {
      hide StartupCandidates, InspectedStartup, StartRuntimeTools;
    }
    hide PhaseOf, Permitted;
    PreviewBreaks(base, rs);
  }

  // ---------------------------------------------------------------- starting, listing and previewing again

  lemma PageIsNoStartup(p: Project)
    requires p.listedFiles == ["a.html"]
    ensures StartupCandidates(p) == []
  {
    hide PathName, IsKnownStartup;
    PlainName("a.html");
    NotStartup();
    assert ["a.html"][..0] == [];
    assert StartupFiles([]) == [];
    assert StartupFiles(["a.html"]) == [];
  }

  lemma NotStartup()
    ensures !IsKnownStartup("a.html")
  {
  }

  lemma ListingPermitted(s: State, base: set<Tool>)
    requires ListFiles in base && (PhaseOf(s) == Discover || (PhaseOf(s) == StartRuntime && DiagnosisOpen(s)))
    ensures ListFiles in Permitted(s, base)
  {
    hide PhaseOf, DiagnosisOpen, HasStaticHtml, DependenciesSettled, BrowserStartSpec;
    PhaseFacts(s);
  }

  lemma ListedPageStarts(s: State)
    requires Active(s) && NeedsRuntime(s) && !s.runtime.runtimeReady && s.project.listedFiles == ["a.html"]
    ensures PhaseOf(s) == StartRuntime
  {
    hide StartupCandidates, InspectedStartup;
    PageIsNoStartup(s.project);
  }

  /** Where files can be listed, a static page can be found and previewed. */
  lemma ListingBreaks(base: set<Tool>, rs: RunState)
    requires Equipped(base) && ListFiles in base && Restored(rs.coord)
    requires PhaseOf(rs.coord) == Discover || (PhaseOf(rs.coord) == StartRuntime && DiagnosisOpen(rs.coord))
    ensures Breaks(base, rs)
  {
    hide PhaseOf, Permitted, DiagnosisOpen, HasStaticHtml, ListedNormal, Validate, Rewrite, Observe;
    var s := rs.coord;
    PhaseFacts(s);
    ListingPermitted(s, base);
    FreeCalls(s, ListFiles, map[]);
    ListingFindsPage(s);
    var next := Next(base, Next(base, rs, Turn), Call(ListFiles, map[], ListedPage(), true));
    ListedPageStarts(next.coord);
    DiagnosisPermitsReading(base, next.coord);
    PreviewBreaks(base, next);
    BreaksAfterCall(base, rs, ListFiles, map[], ListedPage(), true);
  }

  function FailedStart(): Receipt { Silent().(text := "x") }

  lemma FailureOpensDiagnosis(s: State, args: Args)
    requires PhaseOf(s) == StartRuntime && CompanionSpec(s).None?
    ensures var t := Observe(s, StartProcess, args, FailedStart(), false);
            && PhaseOf(t) == StartRuntime && DiagnosisOpen(t)
            && t.review == s.review && t.contract == s.contract && t.project == s.project
  {
    hide StartupCandidates, ServerDirectories, StartCommand, FindOrigin, NormPath, IsPackageJson;
  }

  /** A start that no companion command explains may fail, which opens listing. */
  lemma FailedStartBreaks(base: set<Tool>, rs: RunState)
    requires Equipped(base) && ListFiles in base && Restored(rs.coord)
    requires PhaseOf(rs.coord) == StartRuntime && StartFeasible(rs.coord) && CompanionSpec(rs.coord).None?
    ensures Breaks(base, rs)
  {
    hide PhaseOf, Permitted, DiagnosisOpen, Validate, Rewrite, Observe, StartFeasible, CompanionSpec;
    var s := rs.coord;
    PhaseFacts(s);
    StartPermitted(base, s);
    FeasibleStartAccepted(s);
    var raw := UrlArgs(FeasibleCwd(s));
    FailureOpensDiagnosis(s, Rewrite(s, StartProcess, raw));
    ListingBreaks(base, Next(base, Next(base, rs, Turn), Call(StartProcess, raw, FailedStart(), false)));
    BreaksAfterCall(base, rs, StartProcess, raw, FailedStart(), false);
  }

  /** Nothing the page has reported can name a companion service. */
  predicate NoCompanion(t: Runtime) {
    t.runtimeBlockers == [] || t.companionStartAttempted || FindOrigin(Join(t.runtimeBlockers, " ")).None?
  }

  lemma NoCompanionSpec(s: State)
    requires NoCompanion(s.runtime)
    ensures CompanionSpec(s).None?
  {
    hide FindOrigin, ServerDirectories, StartCommand;
  }

  /** Reading one unread startup file: one fewer is left and nothing else matters. */
  lemma ReadOne(base: set<Tool>, s: State) returns (path: string)
    requires Equipped(base) && ListedNormal(s) && StartFeasible(s) && PhaseOf(s) == InspectStartup
    ensures CanCall(base, s, ReadFile, ReadArgs(path))
    ensures var t := CallOn(s, ReadFile, ReadArgs(path), PlainRead());
            && t.review == s.review && t.contract == s.contract && t.runtime == s.runtime && t.browser == s.browser
            && t.project == s.project.(readFiles := t.project.readFiles) && StartFeasible(t)
            && (PhaseOf(t) == InspectStartup || PhaseOf(t) == StartRuntime)
            && UnreadStartup(t) < UnreadStartup(s)
  {
    hide StartupCandidates, InspectedStartup, StartFeasible, CallOn, CanCall, PhaseOf, Unread;
    var candidates := StartupCandidates(s.project);
    UnreadMeansUninspected(s);
    path := Unread(candidates, s.project.readFiles)[0];
    UnreadFacts(candidates, s.project.readFiles, path);
    CandidatesAreListed(s.project, path);
    ReadCandidate(base, s, path);
    var t := CallOn(s, ReadFile, ReadArgs(path), PlainRead());
    SameListing(s.project, t.project);
    FeasibleIgnoresReading(s, t);
    StillStarting(s, t);
  }

  function UnreadStartup(s: State): nat { |Unread(StartupCandidates(s.project), s.project.readFiles)| }

  /** With no companion to explain a failure, every unready state with a feasible start is exposed. */
  lemma {:induction false} QuietStartBreaks(base: set<Tool>, rs: RunState)
    requires Equipped(base) && ListFiles in base && Restored(rs.coord) && StartFeasible(rs.coord)
    requires NoCompanion(rs.coord.runtime) && PhaseOf(rs.coord) in {Discover, InspectStartup, StartRuntime}
    ensures Breaks(base, rs)
    decreases UnreadStartup(rs.coord)
  {
    hide PhaseOf, StartFeasible, NoCompanion, UnreadStartup, CanCall, CallOn, Breaks, Next;
    match PhaseOf(rs.coord) {
      case Discover =>
        ListingBreaks(base, rs);
      case StartRuntime =>
        NoCompanionSpec(rs.coord);
        FailedStartBreaks(base, rs);
      case InspectStartup =>
        var path := ReadOne(base, rs.coord);
        var next := Next(base, Next(base, rs, Turn), Call(ReadFile, ReadArgs(path), PlainRead(), true));
        NextOfTurn(base, rs, ReadFile, ReadArgs(path), PlainRead());
        QuietStartBreaks(base, next);
        BreaksAfterCall(base, rs, ReadFile, ReadArgs(path), PlainRead(), true);
    }
  }

  // ---------------------------------------------------------------- the remaining phases

  function BrokenPage(): Receipt { Silent().(networkErrors := ["http 500"]) }

  lemma ServerErrorIsCritical()
    ensures Strip("http 500") == "http 500" && IsCritical(Lower("http 500"))
  {
    var text := "http 500";
    TrimTrims(text, IsSpace);
    assert Lower(text) == text;
    var markers := [
      "err_connection_refused", "connection refused", "err_name_not_resolved",
      "err_connection_timed_out", "http 500", "http 502", "http 503", "http 504"];
    assert markers[4] == text && Contains(text, text);
  }

  lemma BrokenPageErrors()
    ensures CriticalErrors(BrokenPage()) == ["http 500"]
  {
    hide Strip, IsCritical, Lower;
    ServerErrorIsCritical();
    assert ["http 500"] + [] == ["http 500"] && ["http 500"][..0] == [];
    assert CriticalAmong([]) == [];
    assert CriticalAmong(["http 500"]) == ["http 500"];
    assert Dedup(["http 500"]) == ["http 500"];
  }

  lemma {:induction false} NoSlashNoOrigin(text: string)
    requires '/' !in text
    ensures FindOrigin(text).None?
  {
    assert OriginAt(text).None? by { SchemesHaveSlashes(text); }
    if text != "" {
      NoSlashNoOrigin(text[1..]);
    }
  }

  lemma SchemesHaveSlashes(text: string)
    requires '/' !in text
    ensures !("https://" <= Lower(text)) && !("http://" <= Lower(text))
  {
    assert forall i :: 0 <= i < |text| ==> Lower(text)[i] != '/';
    assert "https://"[6] == '/' && "http://"[5] == '/';
  }

  lemma BrokenPageUnreadies(s: State, args: Args)
    requires s.contract.requireBrowser && s.browser.browserOpened
    ensures var t := Observe(s, BrowserInspect, args, BrokenPage(), true);
            && t == s.(runtime := t.runtime, browser := t.browser, failure := t.failure)
            && !t.runtime.runtimeReady && t.browser.browserOpened && NoCompanion(t.runtime)
  {
    hide CriticalErrors, FindOrigin;
    BrokenPageErrors();
    NoSlashNoOrigin("http 500");
    assert Join(["http 500"], " ") == "http 500";
  }

  lemma InspectingIsAllowed(s: State, base: set<Tool>)
    requires Equipped(base) && s.contract.requireBrowser && PhaseOf(s) == InspectBrowser
    ensures s.browser.browserOpened && CanCall(base, s, BrowserInspect, map[])
  {
    hide StartupCandidates, InspectedStartup, StartRuntimeTools, Rewrite;
  }

  lemma UnreadyPhases(s: State)
    requires Active(s) && NeedsRuntime(s) && !s.runtime.runtimeReady
    ensures PhaseOf(s) in {Discover, InspectStartup, StartRuntime}
  {
    hide PhaseOf;
    PhaseFacts(s);
  }

  lemma OpenBrowserIsFeasible(s: State)
    requires s.browser.browserOpened
    ensures StartFeasible(s)
  {
    hide BrowserDirectories, BrowserStartSpec;
  }

  /** A page inspection may find the server broken, which sends a task that runs a project back to its start. */
  lemma BrokenPageBreaks(base: set<Tool>, rs: RunState)
    requires Equipped(base) && ListFiles in base && Restored(rs.coord)
    requires PhaseOf(rs.coord) == InspectBrowser && NeedsRuntime(rs.coord)
    ensures Breaks(base, rs)
  {
    hide PhaseOf, StartFeasible, NoCompanion, CanCall, Breaks, Next, Observe, Rewrite, ListedNormal;
    PhaseFacts(rs.coord);
    InspectingIsAllowed(rs.coord, base);
    BrokenPageUnreadies(rs.coord, Rewrite(rs.coord, BrowserInspect, map[]));
    NextOfTurn(base, rs, BrowserInspect, map[], BrokenPage());
    var next := Next(base, Next(base, rs, Turn), Call(BrowserInspect, map[], BrokenPage(), true));
    SameListingIsNormal(rs.coord, next.coord);
    UnreadyPhases(next.coord);
    OpenBrowserIsFeasible(next.coord);
    QuietStartBreaks(base, next);
    BreaksAfterCall(base, rs, BrowserInspect, map[], BrokenPage(), true);
  }

  /** Without a project to run, an inspection leads to a capture if one is still owed. */
  lemma OwedCaptureBreaks(base: set<Tool>, rs: RunState)
    requires Equipped(base) && Restored(rs.coord) && PhaseOf(rs.coord) == InspectBrowser && Owed(rs.coord) > 0
    ensures Breaks(base, rs)
  {
    hide PhaseOf, CanCall, Breaks, Next, Observe, Rewrite, ListedNormal;
    InspectingIsAllowed(rs.coord, base);
    CleanPageInspects(rs.coord, Rewrite(rs.coord, BrowserInspect, map[]));
    NextOfTurn(base, rs, BrowserInspect, map[], CleanPage());
    var next := Next(base, Next(base, rs, Turn), Call(BrowserInspect, map[], CleanPage(), true));
    SameListingIsNormal(rs.coord, next.coord);
    assert PhaseOf(next.coord) == Capture by { InspectedOwes(rs.coord, next.coord); }
    CapturePhaseBreaks(base, next);
    BreaksAfterCall(base, rs, BrowserInspect, map[], CleanPage(), true);
  }

  lemma InspectedOwes(s: State, t: State)
    requires PhaseOf(s) == InspectBrowser && Owed(s) > 0
    requires t == s.(runtime := t.runtime, browser := t.browser, failure := t.failure)
    requires t.browser.browserOpened && t.browser.browserInspected && t.runtime.runtimeReady == s.runtime.runtimeReady
    ensures PhaseOf(t) == Capture
  {
    hide StartupCandidates, InspectedStartup;
  }

  lemma SuccessfulStart(s: State, args: Args)
    requires s.contract.requireBrowser && PhaseOf(s) == StartRuntime && CompanionSpec(s).Some?
    ensures var t := Observe(s, StartProcess, args, GoodStart(), true);
            && t == s.(runtime := t.runtime, browser := t.browser, failure := t.failure)
            && PhaseOf(t) == if s.browser.browserOpened then InspectBrowser else OpenBrowser
  {
    hide StartupCandidates, InspectedStartup, ServerDirectories, StartCommand, FindOrigin;
  }

  /** Every feasible start is exposed: it fails unexplained, or its companion succeeds and the browser is next. */
  lemma FeasibleStartBreaks(base: set<Tool>, rs: RunState)
    requires Equipped(base) && ListFiles in base && Restored(rs.coord)
    requires PhaseOf(rs.coord) == StartRuntime && StartFeasible(rs.coord)
    ensures Breaks(base, rs)
  {
    hide PhaseOf, StartFeasible, CompanionSpec, Permitted, Validate, Breaks, Next, Observe, Rewrite, ListedNormal;
    if CompanionSpec(rs.coord).None? {
      FailedStartBreaks(base, rs);
    } else {
      PhaseFacts(rs.coord);
      StartPermitted(base, rs.coord);
      FeasibleStartAccepted(rs.coord);
      var raw := UrlArgs(FeasibleCwd(rs.coord));
      SuccessfulStart(rs.coord, Rewrite(rs.coord, StartProcess, raw));
      NextOfTurn(base, rs, StartProcess, raw, GoodStart());
      var next := Next(base, Next(base, rs, Turn), Call(StartProcess, raw, GoodStart(), true));
      SameListingIsNormal(rs.coord, next.coord);
      if rs.coord.browser.browserOpened {
        BrokenPageBreaks(base, next);
      } else {
        OpenPhaseBreaks(base, next);
      }
      BreaksAfterCall(base, rs, StartProcess, raw, GoodStart(), true);
    }
  }

  lemma {:induction false} FeasibleInspectionBreaks(base: set<Tool>, rs: RunState)
    requires Equipped(base) && ListFiles in base && Restored(rs.coord)
    requires PhaseOf(rs.coord) in {InspectStartup, StartRuntime} && StartFeasible(rs.coord)
    ensures Breaks(base, rs)
    decreases UnreadStartup(rs.coord)
  {
    hide PhaseOf, StartFeasible, UnreadStartup, CanCall, CallOn, Breaks, Next;
    if PhaseOf(rs.coord) == StartRuntime {
      FeasibleStartBreaks(base, rs);
    } else {
      var path := ReadOne(base, rs.coord);
      var next := Next(base, Next(base, rs, Turn), Call(ReadFile, ReadArgs(path), PlainRead(), true));
      NextOfTurn(base, rs, ReadFile, ReadArgs(path), PlainRead());
      FeasibleInspectionBreaks(base, next);
      BreaksAfterCall(base, rs, ReadFile, ReadArgs(path), PlainRead(), true);
    }
  }

  lemma InspectionBreaks(base: set<Tool>, rs: RunState)
    requires Equipped(base) && ListFiles in base && Restored(rs.coord) && PhaseOf(rs.coord) == InspectStartup
    ensures Breaks(base, rs)
  {
    hide PhaseOf, StartFeasible, Permitted, Validate, Breaks, Next, Observe, Rewrite, ListedNormal;
    if StartFeasible(rs.coord) {
      FeasibleInspectionBreaks(base, rs);
    } else {
      PhaseFacts(rs.coord);
      ReadingPermitted(rs.coord, base);
      FreeCalls(rs.coord, ReadFile, ReadArgs("package.json"));
      ReadingRootManifest(rs.coord);
      NextOfTurn(base, rs, ReadFile, ReadArgs("package.json"), ReactManifest());
      var next := Next(base, Next(base, rs, Turn), Call(ReadFile, ReadArgs("package.json"), ReactManifest(), true));
      StillStarting(rs.coord, next.coord);
      assert ListedNormal(next.coord) by { SameListingIsNormal(rs.coord, next.coord); }
      FeasibleInspectionBreaks(base, next);
      BreaksAfterCall(base, rs, ReadFile, ReadArgs("package.json"), ReactManifest(), true);
    }
  }

  lemma SameListingIsNormal(s: State, t: State)
    requires ListedNormal(s) && t.project.listedFiles == s.project.listedFiles
    ensures ListedNormal(t)
  {
  }

  lemma ReadingPermitted(s: State, base: set<Tool>)
    requires Equipped(base) && PhaseOf(s) == InspectStartup
    ensures ReadFile in Permitted(s, base)
  {
    hide PhaseOf;
    PhaseFacts(s);
  }

  // ---------------------------------------------------------------- the exact condition

  /** A restored review can still gain a capture: a phase that previews or captures lies ahead. */
  predicate Exposed(s: State) {
    match PhaseOf(s)
    case Discover => true
    case InspectStartup => true
    case StartRuntime => !DeadStart(s)
    case OpenBrowser => true
    case InspectBrowser => NeedsRuntime(s) || Owed(s) > 0
    case Capture => true
    case _ => false
  }

  lemma ExposedBreaks(base: set<Tool>, rs: RunState)
    requires Equipped(base) && ListFiles in base && Restored(rs.coord) && Exposed(rs.coord)
    ensures Breaks(base, rs)
  {
    hide PhaseOf, StartFeasible, DiagnosisOpen, HasStaticHtml, Breaks, Permitted, ListedNormal;
    match PhaseOf(rs.coord) {
      case Discover => ListingBreaks(base, rs);
      case InspectStartup => InspectionBreaks(base, rs);
      case OpenBrowser => OpenPhaseBreaks(base, rs);
      case Capture => CapturePhaseBreaks(base, rs);
      case InspectBrowser =>
        if NeedsRuntime(rs.coord) {
          BrokenPageBreaks(base, rs);
        } else {
          OwedCaptureBreaks(base, rs);
        }
      case StartRuntime =>
        if StartFeasible(rs.coord) {
          FeasibleStartBreaks(base, rs);
        } else if DiagnosisOpen(rs.coord) {
          ListingBreaks(base, rs);
        } else {
          DiagnosisPermitsReading(base, rs.coord);
          PreviewBreaks(base, rs);
        }
    }
  }

  /** An open page without a project behind it and without captures owed: only its inspection is missing. */
  ghost predicate OnlyInspection(rs: RunState) {
    && Active(rs.coord) && rs.coord.contract.requireBrowser && !NeedsRuntime(rs.coord)
    && rs.coord.browser.browserOpened && Owed(rs.coord) == 0 && !Unreviewed(rs) && rs.coord.review.visualReviewed
    && forall tool :: tool in rs.allowed ==> Lifecycle(tool) || tool in {BrowserInspect, BrowserClose, PublishOutput}
  }

  lemma InspectionSurface(s: State, base: set<Tool>, tool: Tool)
    requires Active(s) && s.contract.requireBrowser && !NeedsRuntime(s) && s.browser.browserOpened && Owed(s) == 0
    requires s.review.visualReviewed && PhaseOf(s) != Complete && tool in Permitted(s, base)
    ensures Lifecycle(tool) || tool in {BrowserInspect, BrowserClose, PublishOutput}
  {
    hide StartupCandidates, InspectedStartup, StartRuntimeTools;
  }

  lemma InspectionCallKeeps(s: State, tool: Tool, args: Args, r: Receipt, ok: bool)
    requires Lifecycle(tool) || tool in {BrowserInspect, BrowserClose, PublishOutput}
    ensures var t := Observe(s, tool, args, r, ok);
            && t.contract == s.contract && t.gallery == s.gallery
            && (s.browser.browserOpened ==> t.browser.browserOpened)
            && t.review == s.review.(outputReady := t.review.outputReady)
  {
    hide Classify, CriticalErrors, SeeUrl, SeeTargets;
    OpenStaysOpen(s, tool, args, r, ok);
    if tool != PublishOutput {
      ContractIsFixed(s, tool, args, r, ok);
    }
  }

  lemma {:induction false} OnlyInspectionHolds(base: set<Tool>, rs: RunState, es: seq<Event>)
    requires OnlyInspection(rs) && Pending(base, rs, es)
    ensures !Unreviewed(After(base, rs, es))
    decreases |es|
  {
    hide Observe, Rewrite, Validate, Permitted, PhaseOf;
    if es != [] {
      if es[0].Call? {
        InspectionCallKeeps(rs.coord, es[0].tool, Rewrite(rs.coord, es[0].tool, es[0].raw), es[0].receipt, es[0].ok);
      } else {
        forall tool | tool in Permitted(rs.coord, base)
          ensures Lifecycle(tool) || tool in {BrowserInspect, BrowserClose, PublishOutput}
        {
          InspectionSurface(rs.coord, base, tool);
        }
      }
      OnlyInspectionHolds(base, Next(base, rs, es[0]), es[1..]);
    }
  }

  lemma {:induction false} StuckStartHolds(base: set<Tool>, rs: RunState, es: seq<Event>)
    requires StuckStart(rs) && !Unreviewed(rs) && Pending(base, rs, es)
    ensures !Unreviewed(After(base, rs, es))
    decreases |es|
  {
    hide Observe, Rewrite, Validate, Permitted, PhaseOf, DeadStart, Idle, AllIn;
    if es != [] {
      StuckStartStays(base, rs, es[0]);
      if es[0].Call? {
        var call := es[0];
        DeadStartFacts(rs.coord);
        InfeasibleStartRejected(rs.coord, call.raw);
        IdleCallChangesLittle(rs.coord, call.tool, Rewrite(rs.coord, call.tool, call.raw), call.receipt, call.ok);
        assert call.tool != InspectImages by { InspectingIsNotIdle(); }
      }
      StuckStartHolds(base, Next(base, rs, es[0]), es[1..]);
    }
  }

  lemma InspectingIsNotIdle()
    ensures !Idle(InspectImages)
  {
  }

  lemma {:induction false} CapturesHold(base: set<Tool>, rs: RunState, es: seq<Event>)
    requires CaptureInv(rs) && Pending(base, rs, es)
    ensures !Unreviewed(After(base, rs, es))
    decreases |es|
  {
    hide Observe, Rewrite, Validate, Permitted, PhaseOf, SurfaceInv, Evidence, AllIn, OnlyLate;
    if es != [] {
      StepKeepsCaptures(base, rs, es[0]);
      CapturesHold(base, Next(base, rs, es[0]), es[1..]);
    }
  }

  lemma UnexposedPhases(s: State)
    requires s.contract.requireBrowser && s.review.visualReviewed && !Exposed(s)
    ensures PhaseOf(s) == Complete || Evidence(s) || DeadStart(s)
            || (PhaseOf(s) == InspectBrowser && !NeedsRuntime(s) && Owed(s) == 0 && s.browser.browserOpened && Active(s))
  {
    hide StartFeasible, StartupCandidates, InspectedStartup, DiagnosisOpen, HasStaticHtml;
  }

  lemma UnexposedHolds(base: set<Tool>, start: State, evaluated: set<string>, es: seq<Event>)
    requires start.contract.requireBrowser && start.review.visualReviewed && !Exposed(start)
    requires AllIn(start.gallery.capturedPaths, evaluated)
    requires Pending(base, Between(start, evaluated), es)
    ensures !Unreviewed(After(base, Between(start, evaluated), es))
  {
    hide PhaseOf, Exposed, DeadStart, Evidence, AllIn, Permitted, Observe, Rewrite, Validate;
    var rs := Between(start, evaluated);
    UnexposedPhases(start);
    if PhaseOf(start) == Complete {
      assert es == [];
    } else if Evidence(start) {
      EvidencedHolds(base, start, evaluated, es);
    } else if DeadStart(start) {
      StuckStartHolds(base, rs, es);
    } else {
      OnlyInspectionHolds(base, rs, es);
    }
  }

  lemma EvidencedHolds(base: set<Tool>, start: State, evaluated: set<string>, es: seq<Event>)
    requires start.review.visualReviewed ==> Evidence(start) && AllIn(start.gallery.capturedPaths, evaluated)
    requires Pending(base, Between(start, evaluated), es)
    ensures !Unreviewed(After(base, Between(start, evaluated), es))
  {
    hide Evidence, AllIn, Permitted, Observe, Rewrite, Validate, PhaseOf;
    CapturesHold(base, Between(start, evaluated), es);
  }

  /**
   * When a request asks for a review, a resumed action can end up with a review in force over a capture nobody
   * evaluated exactly if the restored review already is one, or the restored state is exposed.
   */
  lemma RestoredReviewBreaksIffExposed(base: set<Tool>, start: State, evaluated: set<string>)
    requires Equipped(base) && ListFiles in base && SoundContract(start.contract) && ListedNormal(start)
    requires start.contract.requireVisualReview
    ensures Breaks(base, Between(start, evaluated))
            <==> start.review.visualReviewed && (!AllIn(start.gallery.capturedPaths, evaluated) || Exposed(start))
  {
    hide Exposed, AllIn, ListedNormal, PhaseOf, Evidence;
    var rs := Between(start, evaluated);
    if !start.review.visualReviewed {
      forall es | Pending(base, rs, es)
        ensures !Unreviewed(After(base, rs, es))
      {
        EvidencedHolds(base, start, evaluated, es);
      }
    } else if !AllIn(start.gallery.capturedPaths, evaluated) {
      BreaksNow(base, rs);
    } else if Exposed(start) {
      ExposedBreaks(base, rs);
    } else {
      forall es | Pending(base, rs, es)
        ensures !Unreviewed(After(base, rs, es))
      {
        UnexposedHolds(base, start, evaluated, es);
      }
    }
  }
}
