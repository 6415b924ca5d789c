/** From which states can a gated action still be completed, and from which never again? */
module Completion {
  import opened Text
  import opened Fingerprints
  import opened Workflow
  import opened GatedRuns

  /** Demands as the outcome contract builds them: captures need a browser, review needs captures. */
  predicate SoundContract(c: Contract) {
    (c.screenshotCount > 0 ==> c.requireBrowser) && (c.requireVisualReview ==> c.screenshotCount > 0)
  }

  /** The registered tools a completing run relies on. */
  predicate Equipped(base: set<Tool>) {
    {ReadFile, StartProcess, PreviewHtml, BrowserInspect, BrowserScreenshot, InspectImages, PublishOutput} <= base
  }

  ghost predicate ListedNormal(s: State) {
    forall path :: path in s.project.listedFiles ==> path != "" && NormPath(path) == path
  }

  /** What a state reached before the first completion satisfies. */
  ghost predicate Reachable(s: State) {
    SoundContract(s.contract) && ListedNormal(s) && (s.review.visualReviewed ==> Evidence(s))
  }

  // ---------------------------------------------------------------- the two dead ends

  /** The review selected nothing; the phase offers no way to capture or review again. */
  predicate DeadPublish(s: State) {
    PhaseOf(s) == Publish && s.contract.requireVisualReview && s.review.selectedPaths == []
  }

  /** Some cwd text normalises to this directory. */
  predicate Nameable(directory: string) {
    directory != "" && directory[0] != '/' && directory[|directory| - 1] != '/' && '\\' !in directory
  }

  /** Can any start_process arguments pass the frontend check once the coordinator has rewritten them? */
  predicate StartFeasible(s: State) {
    var preferred := BrowserDirectories(s.project);
    || !s.contract.requireBrowser || s.browser.browserOpened || preferred == []
    || (if BrowserStartSpec(s.project).Some? then NormDirectory(preferred[0]) == preferred[0]
        else exists i :: 0 <= i < |preferred| && Nameable(preferred[i]))
  }

  /** No acceptable start command, no static page to preview, no permission to read further manifests. */
  predicate DeadStart(s: State) {
    PhaseOf(s) == StartRuntime && !StartFeasible(s) && !HasStaticHtml(s.project) && !DiagnosisOpen(s)
  }

  // ---------------------------------------------------------------- asking for a review

  lemma ReviewIsOffered(base: set<Tool>, s: State, raw: Args)
    requires PhaseOf(s) == VisualReview && InspectImages in base
    ensures InspectImages in Permitted(s, base) && Validate(s, InspectImages, Rewrite(s, InspectImages, raw)) == Accepted
  {
    hide StartupCandidates, InspectedStartup, StartRuntimeTools, Rewrite;
  }

  // ---------------------------------------------------------------- directory texts

  lemma NormDirectoryIsNameable(text: string)
    ensures Nameable(NormDirectory(text))
  {
    var norm := NormPath(OrElse(text, "."));
    TrimTrims(norm, IsSlash);
    TrimElements(norm, IsSlash, '\\');
  }

  lemma SlashesNameIt(directory: string)
    requires Nameable(directory)
    ensures NormDirectory("/" + directory + "/") == directory
    ensures NormPath("/" + directory + "/") !in {"", "."}
  {
    var text := "/" + directory + "/";
    assert Trimmed(text, IsSpace);
    TrimTrims(text, IsSpace);
    assert ToSlash(text) == text;
    assert TrimLeft(text, IsSlash) == directory + "/" by {
      assert text[1..] == directory + "/";
      assert (directory + "/")[0] == directory[0];
    }
    assert (directory + "/")[..|directory|] == directory;
    assert TrimRight(directory + "/", IsSlash) == TrimRight(directory, IsSlash) == directory;
  }

  lemma SameDirectory(text: string, directory: string)
    requires directory != "" && Strip(text) == directory
    ensures NormDirectory(text) == NormDirectory(directory)
  {
    TrimTrims(text, IsSpace);
    TrimTrims(directory, IsSpace);
  }

  lemma ParentDirNotEmpty(path: string)
    ensures ParentDir(path) != ""
  {
  }

  lemma {:induction false} FrontendsNotEmpty(ms: seq<(string, Manifest)>)
    ensures forall r :: r in RankedFrontends(ms) ==> r.1 != ""
  {
    hide ParentDir, ServesUi, Markers;
    if ms != [] {
      FrontendsNotEmpty(ms[..|ms| - 1]);
      ParentDirNotEmpty(ms[|ms| - 1].0);
    }
  }

  lemma BrowserDirectoriesAreRanked(p: Project, r: (nat, string))
    ensures r in RankedFrontends(p.packageManifests) ==> r.1 in BrowserDirectories(p)
    ensures forall d :: d in BrowserDirectories(p) ==> d != ""
  {
    hide RankedFrontends, Dedup, FrontendLeq, SortBy;
    var ranked := RankedFrontends(p.packageManifests);
    var sorted := SortBy(Dedup(ranked), FrontendLeq);
    DedupElements(ranked);
    SortByElements(Dedup(ranked), FrontendLeq);
    FrontendsNotEmpty(p.packageManifests);
    forall x
      ensures x in sorted <==> x in ranked
    {
      assert x in sorted <==> x in multiset(sorted);
      assert x in Dedup(ranked) <==> x in multiset(Dedup(ranked));
    }
    if r in ranked {
      var i :| 0 <= i < |sorted| && sorted[i] == r;
      assert Seconds(sorted)[i] == r.1;
    }
  }

  // ---------------------------------------------------------------- starting the runtime

  /**
   * The fallback to the arguments, for a receipt that only says it is ready: the coordinator then has an address
   * exactly if the type is literally "url", or "port" with nothing but digits. Validation accepts more, as it folds the
   * type and strips the value. The receipts of start_process always carry their readiness (see Readiness).
   */
  lemma AcceptedStartIsReadyIff(s: State, args: Args, r: Receipt)
    requires Active(s) && s.contract.requireBrowser && !s.browser.browserOpened
    requires Validate(s, StartProcess, args) == Accepted
    requires ReadyReceipt(r) && r.readinessUrl == "" && r.readinessType == "" && r.readinessValue == ""
    ensures Observe(s, StartProcess, args, r, true).runtime.runtimeReady
            <==> TextArg(args, ReadinessType) == "url"
                 || (TextArg(args, ReadinessType) == "port" && AllDigits(TextArg(args, ReadinessValue)))
  {
    hide NormDirectory, BrowserDirectories, Lower, Trim;
    EmptyIsBlank();
    NoneIsNoSignal();
  }

  lemma EmptyIsBlank()
    ensures Strip("") == ""
  {
  }

  lemma NoneIsNoSignal()
    ensures Fold("none") == "none" && Fold("url") == "url" && Fold("port") == "port"
  {
    TrimTrims("none", IsSpace);
    TrimTrims("url", IsSpace);
    TrimTrims("port", IsSpace);
    assert Lower("none") == "none" && Lower("url") == "url" && Lower("port") == "port";
  }

  /** Whatever the model asks for, an infeasible start is rejected after rewriting. */
  lemma InfeasibleStartRejected(s: State, raw: Args)
    requires Active(s) && !StartFeasible(s)
    ensures Validate(s, StartProcess, Rewrite(s, StartProcess, raw)) != Accepted
  {
    hide BrowserDirectories, BrowserStartSpec, CompanionSpec, NormDirectory, Nameable, PortIn, Fold, Strip, NormPath;
    var args := RewriteStart(s, raw);
    var cwd := TextArg(args, Cwd);
    NormDirectoryIsNameable(cwd);
    if BrowserStartSpec(s.project).Some? {
      SpecIsOnlyFrontend(s.project);
      RewrittenCwd(s, raw);
      if Strip(cwd) == BrowserStartSpec(s.project).value.cwd {
        SameDirectory(cwd, BrowserStartSpec(s.project).value.cwd);
      }
    } else {
      assert forall d :: d in BrowserDirectories(s.project) ==> !Nameable(d);
    }
  }

  lemma SpecIsOnlyFrontend(p: Project)
    requires BrowserStartSpec(p).Some?
    ensures BrowserDirectories(p) == [BrowserStartSpec(p).value.cwd] && BrowserStartSpec(p).value.cwd != ""
  {
    hide BrowserDirectories, StartCommand;
    BrowserDirectoriesAreRanked(p, (0, ""));
    var preferred := BrowserDirectories(p);
    assert preferred == [preferred[0]] && preferred[0] in preferred;
  }

  lemma RewrittenCwd(s: State, raw: Args)
    requires !s.browser.browserOpened && BrowserStartSpec(s.project).Some?
    ensures var cwd := TextArg(RewriteStart(s, raw), Cwd);
            var directory := BrowserStartSpec(s.project).value.cwd;
            cwd == directory || Strip(cwd) == directory
  {
    hide BrowserDirectories, BrowserStartSpec, CompanionSpec, PortIn, Strip, NormPath, AllDigits, Lower;
    SpecIsOnlyFrontend(s.project);
  }

  const LOCAL_URL: string := "http://localhost:1"

  function UrlArgs(cwd: string): Args {
    map[Cwd := Words(cwd), ReadinessType := Words("url"), ReadinessValue := Words(LOCAL_URL)]
  }

  /** A cwd that survives rewriting and validation whenever one exists. */
  ghost function FeasibleCwd(s: State): string
    requires StartFeasible(s)
  {
    var preferred := BrowserDirectories(s.project);
    if preferred == [] || !s.contract.requireBrowser || s.browser.browserOpened then "."
    else if BrowserStartSpec(s.project).Some? then preferred[0]
    else
      var i :| 0 <= i < |preferred| && Nameable(preferred[i]);
      "/" + preferred[i] + "/"
  }

  lemma UrlIsSignal()
    ensures Fold("url") == "url" && Strip(LOCAL_URL) == LOCAL_URL && Lower("url") == "url"
  {
    TrimTrims("url", IsSpace);
    TrimTrims(LOCAL_URL, IsSpace);
  }

  lemma OriginIsVisible(text: string)
    requires FindOrigin(text).Some?
    ensures Strip(FindOrigin(text).value) != ""
  {
    if OriginAt(text).Some? {
      hide FindOrigin, DigitRun;
      var origin := OriginAt(text).value;
      assert Lower(text)[0] == 'h';
      assert LowerChar(text[0]) == 'h';
      assert origin[0] == text[0] && !IsSpace(origin[0]);
      TrimRightIsPrefix(origin, IsSpace);
      FirstVisible(origin);
    } else {
      OriginIsVisible(text[1..]);
    }
  }

  lemma FirstVisible(text: string)
    requires text != "" && !IsSpace(text[0])
    ensures Strip(text) != ""
  {
    assert TrimLeft(text, IsSpace) == text;
    TrimRightKeepsFirst(text, IsSpace);
  }

  /** The readiness part of rewritten URL arguments is always acceptable. */
  lemma RewrittenSignal(s: State, cwd: string)
    ensures var args := RewriteStart(s, UrlArgs(cwd));
            && TextArg(args, ReadinessType) == "url"
            && Strip(TextArg(args, ReadinessValue)) != ""
  {
    hide BrowserDirectories, BrowserStartSpec, PortIn, Strip, NormPath, AllDigits, Lower, ServerDirectories,
         StartCommand, FindOrigin, Join;
    UrlIsSignal();
    if CompanionSpec(s).Some? {
      OriginIsVisible(Join(s.runtime.runtimeBlockers, " "));
    }
  }

  lemma FeasibleStartAccepted(s: State)
    requires StartFeasible(s)
    ensures Validate(s, StartProcess, Rewrite(s, StartProcess, UrlArgs(FeasibleCwd(s)))) == Accepted
  {
    hide BrowserDirectories, BrowserStartSpec, CompanionSpec, NormDirectory, Nameable, PortIn, Fold, Strip, NormPath,
         AllDigits, Lower, RewriteStart, StartFeasible;
    UrlIsSignal();
    RewrittenSignal(s, FeasibleCwd(s));
    if s.contract.requireBrowser && !s.browser.browserOpened && BrowserDirectories(s.project) != [] {
      FeasibleCwdKept(s);
    }
  }

  lemma FeasibleCwdKept(s: State)
    requires StartFeasible(s) && s.contract.requireBrowser && !s.browser.browserOpened
    requires BrowserDirectories(s.project) != []
    ensures NormDirectory(TextArg(RewriteStart(s, UrlArgs(FeasibleCwd(s))), Cwd)) in BrowserDirectories(s.project)
  {
    hide BrowserDirectories, BrowserStartSpec, CompanionSpec, NormDirectory, Nameable, PortIn, Strip, NormPath,
         AllDigits, Lower;
    var preferred := BrowserDirectories(s.project);
    var cwd := FeasibleCwd(s);
    if BrowserStartSpec(s.project).Some? {
      SpecIsOnlyFrontend(s.project);
    } else {
      var i :| 0 <= i < |preferred| && Nameable(preferred[i]) && cwd == "/" + preferred[i] + "/";
      SlashesNameIt(preferred[i]);
      assert OrElse(cwd, ".") == cwd;
    }
  }
}
