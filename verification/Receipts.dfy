/** What each receipt proves, field by field, and what it leaves alone. */
module Receipts {
  import opened Text
  import opened Workflow
  import opened GatedRuns

  // ---------------------------------------------------------------- the project

  function Normal(lines: seq<string>): seq<string> { seq(|lines|, i requires 0 <= i < |lines| => NormPath(lines[i])) }

  lemma {:induction false} ListingFacts(lines: seq<string>)
    ensures forall path :: path in ListedPaths(lines) <==>
              path != "" && path[|path| - 1] != '/' && path in Normal(lines)
    ensures InFirstOrder(ListedPaths(lines), Normal(lines))
  {
    hide NormPath;
    if lines != [] {
      var front, last := lines[..|lines| - 1], NormPath(lines[|lines| - 1]);
      ListingFacts(front);
      assert Normal(lines) == Normal(front) + [last];
      var before, after := ListedPaths(front), ListedPaths(lines);
      forall i, j | 0 <= i < j < |after|
        ensures FirstBefore(Normal(lines), after[i], after[j])
      {
        if j < |before| {
          FirstBeforeStays(Normal(front), last, before[i], before[j]);
        } else {
          assert before[i] in before && after[j] == last;
          assert last !in Normal(front);
          NewComesLast(Normal(front), before[i], last);
        }
      }
    }
  }

  /** A listing is taken over: the normal forms of its lines, without blanks and directories, once each, in order. */
  lemma ListingIsTakenOver(s: State, args: Args, r: Receipt)
    ensures var t := Observe(s, ListFiles, args, r, true);
            && t == s.(project := s.project.(listedFiles := t.project.listedFiles), failure := Failure("", None))
            && (forall path :: path in t.project.listedFiles <==>
                  path != "" && path[|path| - 1] != '/' && path in Normal(r.lines))
            && InFirstOrder(t.project.listedFiles, Normal(r.lines))
  {
    hide NormPath, ListedPaths;
    ListingFacts(r.lines);
  }

  /** At most one manifest is kept for each path. */
  ghost predicate OneEach(ms: seq<(string, Manifest)>) {
    forall i, j :: 0 <= i < j < |ms| ==> ms[i].0 != ms[j].0
  }

  lemma {:induction false} PutFacts(ms: seq<(string, Manifest)>, path: string, m: Manifest)
    requires OneEach(ms)
    ensures var after := PutManifest(ms, path, m);
            && OneEach(after)
            && (forall q, n :: (q, n) in after <==> if q == path then n == m else (q, n) in ms)
  {
    if ms != [] {
      var rest := ms[1..];
      assert ms == [ms[0]] + rest;
      if ms[0].0 == path {
        assert forall n :: (path, n) !in rest;
      } else {
        PutFacts(rest, path, m);
        var after := PutManifest(ms, path, m);
        assert after == [ms[0]] + PutManifest(rest, path, m);
        forall j | 1 <= j < |after|
          ensures after[j].0 != ms[0].0
        {
          assert (after[j].0, after[j].1) in PutManifest(rest, path, m);
          if after[j].0 != path {
            var k :| 0 <= k < |rest| && rest[k] == after[j];
            assert ms[k + 1] == after[j];
          }
        }
        assert forall i, j :: 0 <= i < j < |after| && i > 0 ==> after[i].0 != after[j].0 by {
          assert forall i :: 1 <= i < |after| ==> after[i] == PutManifest(rest, path, m)[i - 1];
        }
      }
    }
  }

  /** A read file is remembered, and a readable package.json replaces what was known of that file, and of no other. */
  lemma ReadingIsRemembered(s: State, args: Args, r: Receipt)
    requires OneEach(s.project.packageManifests)
    ensures var t := Observe(s, ReadFile, args, r, true);
            var path := NormPath(TextArg(args, PathKey));
            && t == s.(project := s.project.(readFiles := t.project.readFiles,
                                             packageManifests := t.project.packageManifests),
                       failure := Failure("", None))
            && OneEach(t.project.packageManifests)
            && (forall q :: q in t.project.readFiles <==> q in s.project.readFiles || (q == path && q != ""))
            && (forall q, n :: (q, n) in t.project.packageManifests <==>
                  if q == path && Lower(PathName(path)) == "package.json" && r.manifest.Some? then n == r.manifest.value
                  else (q, n) in s.project.packageManifests)
  {
    hide NormPath, PathName, Lower, PutManifest;
    if r.manifest.Some? {
      PutFacts(s.project.packageManifests, NormPath(TextArg(args, PathKey)), r.manifest.value);
    }
  }

  /** Every run keeps at most one manifest for each path. */
  lemma {:induction false} RunsKeepOneEach(base: set<Tool>, rs: RunState, es: seq<Event>)
    requires OneEach(rs.coord.project.packageManifests)
    ensures OneEach(After(base, rs, es).coord.project.packageManifests)
    decreases |es|
  {
    hide Observe, Rewrite, Permitted, OneEach;
    if es != [] {
      if es[0].Call? {
        var args := Rewrite(rs.coord, es[0].tool, es[0].raw);
        if es[0].ok && es[0].tool == ReadFile {
          ReadingIsRemembered(rs.coord, args, es[0].receipt);
        } else {
          OthersKeepManifests(rs.coord, es[0].tool, args, es[0].receipt, es[0].ok);
        }
      }
      RunsKeepOneEach(base, Next(base, rs, es[0]), es[1..]);
    }
  }

  lemma OthersKeepManifests(s: State, tool: Tool, args: Args, r: Receipt, ok: bool)
    requires !(ok && tool == ReadFile)
    ensures Observe(s, tool, args, r, ok).project.packageManifests == s.project.packageManifests
    ensures Observe(s, tool, args, r, ok).project.readFiles == s.project.readFiles
  {
    hide AddCapture, ListedPaths, NormDirectory, ReviewImages, SeeUrl, SeeTargets, ServerDirectories,
      NormPath, Lower, MentionsRefusal, StartedUrl, PageRuntime, PageBrowser, Classify;
  }

  /** Only an install that leaves the dependencies installed settles its directory. */
  lemma InstallingSettles(s: State, args: Args, r: Receipt)
    ensures var t := Observe(s, InstallDependencies, args, r, true);
            && t == s.(project := s.project.(dependencyDirectoriesChecked := t.project.dependencyDirectoriesChecked),
                       failure := Failure("", None))
            && forall d :: d in t.project.dependencyDirectoriesChecked <==>
                 d in s.project.dependencyDirectoriesChecked
                 || (d == NormDirectory(TextArg(args, Directory)) && (r.status == Installed || r.status == AlreadySatisfied))
  {
    hide NormDirectory;
  }

  // ---------------------------------------------------------------- the runtime

  /**
   * A start: ready exactly if its process reports ready and running and a browser task has an address; the process is
   * noted once; a healthy companion of an open, blocked page clears the blockers and asks for a reload.
   */
  lemma StartingProves(s: State, args: Args, r: Receipt)
    ensures var t := Observe(s, StartProcess, args, r, true);
            var healthy := r.ready && r.status == Running;
            var unblocks := healthy && s.browser.browserOpened && s.runtime.runtimeBlockers != [];
            && t == s.(runtime := t.runtime, browser := t.browser, failure := Failure("", None))
            && t.runtime == s.runtime.(runtimeReady := t.runtime.runtimeReady, runtimeUrl := t.runtime.runtimeUrl,
                                       processId := t.runtime.processId, processIds := t.runtime.processIds,
                                       runtimeBlockers := if unblocks then [] else s.runtime.runtimeBlockers)
            && (t.runtime.runtimeReady <==> healthy && (s.contract.requireBrowser ==> t.runtime.runtimeUrl != ""))
            && t.runtime.processId == (if r.processId == "" then s.runtime.processId else r.processId)
            && s.runtime.processIds <= t.runtime.processIds
            && (forall p :: p in t.runtime.processIds <==>
                  p in s.runtime.processIds || (p == t.runtime.processId && p != ""))
            && |t.runtime.processIds| <= |s.runtime.processIds| + 1
            && t.browser == if unblocks then s.browser.(browserReloadRequired := true, browserInspected := false)
                            else s.browser
  {
    hide StartedUrl;
  }

  /**
   * The address after a start: an open browser keeps the one it has; otherwise the receipt's readiness address counts,
   * and without one, and only then, a url readiness or a local port of digits, the receipt's word before the call's.
   */
  lemma StartedAddress(s: State, args: Args, r: Receipt)
    ensures var url := Observe(s, StartProcess, args, r, true).runtime.runtimeUrl;
            var kind := if r.readinessType != "" then r.readinessType else TextArg(args, ReadinessType);
            var value := if r.readinessValue != "" then r.readinessValue else TextArg(args, ReadinessValue);
            && (s.browser.browserOpened && s.runtime.runtimeUrl != "" ==> url == s.runtime.runtimeUrl)
            && (!(s.browser.browserOpened && s.runtime.runtimeUrl != "") ==>
                  && (r.readinessUrl != "" ==> url == r.readinessUrl)
                  && (r.readinessUrl == "" && kind == "url" ==> url == value)
                  && (r.readinessUrl == "" && kind == "port" && AllDigits(value) ==> url == "http://127.0.0.1:" + value)
                  && (r.readinessUrl == "" && kind != "url" && !(kind == "port" && AllDigits(value)) ==> url == ""))
  {
  }

  /** A command proves a runtime only where no browser is asked for. */
  lemma CommandsProve(s: State, tool: Tool, args: Args, r: Receipt)
    requires tool == RunCommand || tool == RunBash
    ensures Observe(s, tool, args, r, true)
            == s.(runtime := s.runtime.(runtimeReady := s.runtime.runtimeReady || !s.contract.requireBrowser),
                  failure := Failure("", None))
  {
  }

  // ---------------------------------------------------------------- the browser

  /** What is seen of an address and of the targets of a page. */
  ghost predicate Seen(before: Browser, after: Browser, r: Receipt) {
    && after.browserUrl == (if Strip(r.url) == "" then before.browserUrl else Strip(r.url))
    && (forall path :: path in after.visitedBrowserUrls <==>
          path in before.visitedBrowserUrls
          || (Strip(r.url) != "" && path == (if r.urlPath == "" then "/" else r.urlPath)))
    && after.interactionTargets == (if r.targets == [] then before.interactionTargets else r.targets)
    && after.browserSessionId == (if r.sessionId == "" then before.browserSessionId else r.sessionId)
  }

  /** Opening: the browser is open exactly if the receipt says so, at the address it says. */
  lemma OpeningProves(s: State, args: Args, r: Receipt)
    ensures var t := Observe(s, BrowserOpen, args, r, true);
            && t == s.(runtime := s.runtime.(runtimeUrl := if r.url == "" then s.runtime.runtimeUrl else r.url),
                       browser := t.browser, failure := Failure("", None))
            && (t.browser.browserOpened <==> r.browserOpened == Some(true))
            && Seen(s.browser, t.browser, r)
            && t.browser == s.browser.(browserOpened := t.browser.browserOpened, browserUrl := t.browser.browserUrl,
                                       visitedBrowserUrls := t.browser.visitedBrowserUrls,
                                       interactionTargets := t.browser.interactionTargets,
                                       browserSessionId := t.browser.browserSessionId)
  {
    hide Strip;
  }

  lemma SeeingSees(b: Browser, r: Receipt, isOpen: bool)
    ensures var seen := SeeTargets(SeeUrl(AtSession(b, r, isOpen), r), r);
            Seen(b, seen, r) && seen.browserOpened == isOpen
  {
    hide Strip;
  }

  lemma VerdictsKeep(b: Browser, t: Runtime, page: PageState, r: Receipt, acted: bool)
    ensures var after := PageBrowser(b, page, r, acted);
            && after == b.(pageDefects := after.pageDefects, browserReloadRequired := after.browserReloadRequired,
                           browserInspected := after.browserInspected, actionPendingCapture := after.actionPendingCapture)
    ensures var after := PageRuntime(t, page, r);
            && after == t.(runtimeReady := after.runtimeReady, runtimeBlockers := after.runtimeBlockers,
                           degradedRuntimeWarnings := after.degradedRuntimeWarnings)
  {
    hide CriticalErrors, NonBlank, Dedup;
  }

  /** Looking: an open browser stays open, a closed one opens unless the receipt denies it. */
  lemma LookingSees(s: State, tool: Tool, args: Args, r: Receipt)
    requires tool == BrowserInspect || tool == BrowserAct
    ensures var t := Observe(s, tool, args, r, true);
            && (t.browser.browserOpened <==> s.browser.browserOpened || r.browserOpened != Some(false))
            && Seen(s.browser, t.browser, r)
            && t.runtime == s.runtime.(runtimeReady := t.runtime.runtimeReady, runtimeBlockers := t.runtime.runtimeBlockers,
                                       degradedRuntimeWarnings := t.runtime.degradedRuntimeWarnings)
  {
    hide Strip, Classify, PageRuntime, PageBrowser, SeeUrl, SeeTargets, AtSession;
    var isOpen := s.browser.browserOpened || NotDenied(r);
    SeeingSees(s.browser, r, isOpen);
    var seen := SeeTargets(SeeUrl(AtSession(s.browser, r, isOpen), r), r);
    VerdictsKeep(seen, s.runtime, Classify(s.contract, r), r, tool == BrowserAct);
  }

  /** A preview is a ready runtime, opened and inspected as its receipt says, and a capture if it has one. */
  lemma PreviewingProves(s: State, args: Args, r: Receipt)
    ensures var t := Observe(s, PreviewHtml, args, r, true);
            && t == s.(runtime := s.runtime.(runtimeReady := true,
                                             runtimeUrl := if r.url == "" then s.runtime.runtimeUrl else r.url),
                       browser := s.browser.(browserOpened := r.browserOpened == Some(true),
                                             browserInspected := r.verificationPassed),
                       gallery := t.gallery, failure := Failure("", None))
  {
    hide AddCapture;
  }

  /** A screenshot settles the interaction before it, and opens like a look. */
  lemma ScreenshotsProve(s: State, args: Args, r: Receipt)
    ensures var t := Observe(s, BrowserScreenshot, args, r, true);
            && t == s.(browser := s.browser.(browserOpened := t.browser.browserOpened,
                                             browserSessionId := t.browser.browserSessionId,
                                             actionPendingCapture := false),
                       gallery := t.gallery, failure := Failure("", None))
            && (t.browser.browserOpened <==> s.browser.browserOpened || r.browserOpened != Some(false))
            && t.browser.browserSessionId == (if r.sessionId == "" then s.browser.browserSessionId else r.sessionId)
  {
    hide AddCapture;
  }

  // ---------------------------------------------------------------- failures, output, everything else

  /** A failure is remembered, cut at a thousand characters. */
  lemma FailuresAreRemembered(s: State, tool: Tool, args: Args, r: Receipt)
    ensures var t := Observe(s, tool, args, r, false);
            && t == s.(runtime := t.runtime, failure := t.failure)
            && t.failure.lastFailureTool == Some(tool)
            && t.failure.lastFailure <= r.text && |t.failure.lastFailure| <= 1000
            && (t.failure.lastFailure == r.text || |t.failure.lastFailure| == 1000)
            && (tool != StartProcess && tool != BrowserOpen ==> t.runtime == s.runtime)
  {
    hide ServerDirectories, NormPath, Lower, MentionsRefusal;
  }

  /** The failed start of a server's directory, while a blocked page is open, was the attempt at its companion. */
  lemma FailedCompanions(s: State, args: Args, r: Receipt)
    ensures var t := Observe(s, StartProcess, args, r, false);
            t.runtime == if s.browser.browserOpened && s.runtime.runtimeBlockers != []
                            && NormPath(if TextArg(args, Cwd) == "" then "." else TextArg(args, Cwd))
                               in ServerDirectories(s.project)
                         then s.runtime.(companionStartAttempted := true,
                                         companionStartFailure := t.failure.lastFailure)
                         else s.runtime
  {
    hide ServerDirectories, NormPath;
  }

  const REFUSALS: set<string> := {"err_connection_refused", "not accepting connections", "connection refused"}

  /** A refused browser_open costs the runtime its readiness, any other failure of it costs nothing. */
  lemma RefusedBrowsers(s: State, args: Args, r: Receipt)
    ensures var t := Observe(s, BrowserOpen, args, r, false);
            t.runtime == s.runtime.(runtimeReady :=
              s.runtime.runtimeReady
              && !exists marker :: marker in REFUSALS && Contains(Lower(t.failure.lastFailure), marker))
  {
    hide Lower, Contains;
    RefusalsMean(Lower(Observe(s, BrowserOpen, args, r, false).failure.lastFailure));
  }

  lemma RefusalsMean(folded: string)
    ensures MentionsRefusal(folded) <==> exists marker :: marker in REFUSALS && Contains(folded, marker)
  {
    hide Contains;
    var markers := ["err_connection_refused", "not accepting connections", "connection refused"];
    if MentionsRefusal(folded) {
      var i :| 0 <= i < |markers| && Contains(folded, markers[i]);
      assert markers[i] in REFUSALS;
    }
    if marker :| marker in REFUSALS && Contains(folded, marker) {
      assert marker == markers[0] || marker == markers[1] || marker == markers[2];
    }
  }

  lemma {:induction false} SelectedElements(selected: seq<string>, evaluated: set<string>, path: string)
    ensures path in SelectedAmong(selected, evaluated) <==>
              path in evaluated && exists raw :: raw in selected && Strip(raw) == path
  {
    hide Strip;
    if selected != [] {
      var front, last := selected[..|selected| - 1], selected[|selected| - 1];
      SelectedElements(front, evaluated, path);
      assert selected == front + [last];
    }
  }

  /** A finished evaluation: reviewed exactly if it covers every capture; selected is what it names of its own images. */
  lemma ReviewingProves(s: State, args: Args, r: Receipt, path: string)
    ensures var t := Observe(s, InspectImages, args, r, true);
            && t == s.(review := s.review.(visualReviewed := t.review.visualReviewed,
                                           selectedPaths := t.review.selectedPaths), failure := Failure("", None))
            && (r.status == EvaluatedImages ==>
                  && (t.review.visualReviewed <==> forall c :: c in s.gallery.capturedPaths ==> c in r.evaluations)
                  && (path in t.review.selectedPaths <==>
                        path in r.evaluations && exists raw :: raw in r.selected && Strip(raw) == path)
                  && Distinct(t.review.selectedPaths))
            && (r.status != EvaluatedImages ==> t.review == s.review)
  {
    hide Strip, SelectedAmong, Dedup, Distinct;
    SelectedElements(r.selected, Evaluated(r), path);
    DedupElements(SelectedAmong(r.selected, Evaluated(r)));
  }

  /** A publication that is ready makes the output ready, for good; nothing else does. */
  lemma PublishingProves(s: State, tool: Tool, args: Args, r: Receipt, ok: bool)
    ensures Observe(s, tool, args, r, ok).review.outputReady
            <==> s.review.outputReady || (ok && tool == PublishOutput && r.status == OutputPublished)
    ensures tool == PublishOutput && ok ==>
              Observe(s, tool, args, r, ok) == s.(review := Observe(s, tool, args, r, ok).review, failure := Failure("", None))
  {
  }

  /** All other tools only clear the failure record. */
  lemma OthersProveNothing(s: State, tool: Tool, args: Args, r: Receipt)
    requires tool in {Grep, PollProcess, ReadProcessOutput, StopProcess, WriteFile, EditFile, ApplyPatch,
                      MaterializeArtifact, BrowserClose} || tool.OtherTool?
    ensures Observe(s, tool, args, r, true) == s.(failure := Failure("", None))
  {
  }
}
