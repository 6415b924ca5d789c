/** Which need a phase stands for, which phases offer a tool, and what the startup files say about directories. */
module Surfaces {
  import opened Text
  import opened Workflow
  import opened Rankings

  // ---------------------------------------------------------------- startup files

  predicate IsReadme(path: string) { "readme" <= Lower(PathName(path)) }

  predicate IsManifest(path: string) {
    Lower(PathName(path)) in {"package.json", "pyproject.toml", "requirements.txt", "pipfile"}
  }

  /** Among the candidates READMEs come first and manifests next; alike ones by depth, and then by name without case. */
  lemma CandidatesAreOrdered(p: Project, i: nat, j: nat)
    requires i < j < |StartupCandidates(p)|
    ensures var a, b := StartupCandidates(p)[i], StartupCandidates(p)[j];
            && (IsReadme(b) ==> IsReadme(a))
            && (IsManifest(b) ==> IsReadme(a) || IsManifest(a))
            && (IsReadme(a) == IsReadme(b) && IsManifest(a) == IsManifest(b) ==>
                  CountChar(a, '/') <= CountChar(b, '/')
                  && (CountChar(a, '/') == CountChar(b, '/') ==> LexLeq(Lower(a), Lower(b))))
  {
    hide StartupCandidates, CountChar, LexLeq, Lower, PathName;
    StartupCandidatesAreTheFirst(p);
    var a, b := StartupCandidates(p)[i], StartupCandidates(p)[j];
    assert StartupLeq(a, b);
    ReadmesAreNoManifests(Lower(PathName(a)));
    ReadmesAreNoManifests(Lower(PathName(b)));
  }

  /** A startup file is a README of any kind or has one of the known names; manifests and READMEs are all known. */
  lemma StartupNamesMean(path: string)
    ensures IsStartupName(path) <==> IsReadme(path) || IsKnownStartup(Lower(PathName(path)))
    ensures IsManifest(path) ==> IsStartupName(path)
  {
    hide Lower, PathName;
  }

  lemma ReadmesAreNoManifests(name: string)
    ensures "readme" <= name ==> name !in {"package.json", "pyproject.toml", "requirements.txt", "pipfile"}
  {
    if "readme" <= name {
      assert name[0] == 'r' && name[2] == 'a';
      assert "requirements.txt"[2] == 'q' && "package.json"[0] == 'p' && "pyproject.toml"[0] == 'p' && "pipfile"[0] == 'p';
    }
  }

  /** Without case, the path ends in this text. */
  ghost predicate EndsIn(path: string, end: string) { exists stem: string :: Lower(path) == stem + end }

  /** Some startup file is still to be read: all the package files of a browser task, or else any one. */
  ghost predicate InspectionDue(s: State) {
    var candidates := StartupCandidates(s.project);
    var packages := set c | c in candidates && Lower(PathName(c)) == "package.json";
    candidates != []
    && if s.contract.requireBrowser && packages != {} then exists c :: c in packages && c !in s.project.readFiles
       else forall c :: c in candidates ==> c !in s.project.readFiles
  }

  lemma DueMeansUninspected(s: State)
    ensures InspectionDue(s) <==> StartupCandidates(s.project) != [] && !InspectedStartup(s)
  {
    hide StartupCandidates, PathName, Lower;
    var candidates := StartupCandidates(s.project);
    var packages := set c | c in candidates && Lower(PathName(c)) == "package.json";
    assert packages != {} <==> exists c :: c in candidates && IsPackageJson(c) by {
      if c :| c in candidates && IsPackageJson(c) {
        assert c in packages;
      }
    }
  }

  // ---------------------------------------------------------------- phases

  /** What a phase is there to bring about is still missing. */
  ghost predicate Missing(s: State, p: Phase) {
    match p
    case Discover => RunEffect in s.contract.requestedEffects && !s.runtime.runtimeReady && s.project.listedFiles == []
    case InspectStartup => RunEffect in s.contract.requestedEffects && !s.runtime.runtimeReady && InspectionDue(s)
    case StartRuntime => RunEffect in s.contract.requestedEffects && !s.runtime.runtimeReady
    case OpenBrowser => s.contract.requireBrowser && !s.browser.browserOpened
    case InspectBrowser => s.contract.requireBrowser && !s.browser.browserInspected
    case Capture => |s.gallery.capturedPaths| < s.contract.screenshotCount
    case VisualReview => s.contract.requireVisualReview && !s.review.visualReviewed
    case Publish => s.contract.requireOutput && !s.review.outputReady
    case Complete => true
  }

  function Rank(p: Phase): nat {
    match p
    case Discover => 0
    case InspectStartup => 1
    case StartRuntime => 2
    case OpenBrowser => 3
    case InspectBrowser => 4
    case Capture => 5
    case VisualReview => 6
    case Publish => 7
    case Complete => 8
  }

  /** The request asks for running, installing, previewing, a browser or captures. */
  predicate AsksForAction(c: Contract) {
    RunEffect in c.requestedEffects || InstallEffect in c.requestedEffects || PreviewEffect in c.requestedEffects
    || c.requireBrowser || c.screenshotCount > 0
  }

  /** The phase is the first in order whose purpose is unmet; a request that asks for no action is complete. */
  lemma PhaseIsFirstMissing(s: State, p: Phase)
    ensures AsksForAction(s.contract) ==>
              Missing(s, PhaseOf(s)) && (Rank(p) < Rank(PhaseOf(s)) ==> !Missing(s, p))
    ensures !AsksForAction(s.contract) ==> PhaseOf(s) == Complete
    ensures AsksForAction(s.contract) <==> Active(s)
  {
    hide StartupCandidates, InspectedStartup, InspectionDue, Active;
    DueMeansUninspected(s);
    ActionsAreActive(s);
  }

  /** A fresh coordinator still lacks whatever its request asks for, and nothing has happened to it. */
  lemma FreshLacksEverything(c: Contract)
    ensures var s := Fresh(c);
            && s.contract == c
            && (Missing(s, Discover) <==> RunEffect in c.requestedEffects) && !Missing(s, InspectStartup)
            && (Missing(s, StartRuntime) <==> RunEffect in c.requestedEffects)
            && (Missing(s, OpenBrowser) <==> c.requireBrowser) && (Missing(s, InspectBrowser) <==> c.requireBrowser)
            && (Missing(s, Capture) <==> c.screenshotCount > 0)
            && (Missing(s, VisualReview) <==> c.requireVisualReview) && (Missing(s, Publish) <==> c.requireOutput)
            && !Unexplained(s) && CompanionSpec(s) == None && !s.runtime.companionStartAttempted
            && !s.browser.actionPendingCapture && !s.browser.browserReloadRequired
  {
    var s := Fresh(c);
    assert StartupCandidates(s.project) == [] by { NothingListed(s.project); }
    hide StartupCandidates;
  }

  lemma NothingListed(p: Project)
    requires p.listedFiles == []
    ensures StartupCandidates(p) == []
  {
  }

  lemma ActionsAreActive(s: State)
    ensures AsksForAction(s.contract) <==> Active(s)
  {
    var asked := s.contract.requestedEffects * {RunEffect, InstallEffect, PreviewEffect};
    if asked != {} {
      var e :| e in asked;
    }
    assert RunEffect in s.contract.requestedEffects ==> RunEffect in asked;
    assert InstallEffect in s.contract.requestedEffects ==> InstallEffect in asked;
    assert PreviewEffect in s.contract.requestedEffects ==> PreviewEffect in asked;
  }

  // ---------------------------------------------------------------- surfaces

  /** The last start failed, and no companion explains it. */
  ghost predicate Unexplained(s: State) {
    s.failure.lastFailure != "" && s.failure.lastFailureTool == Some(StartProcess) && CompanionSpec(s) == None
  }

  /** Every directory that would be installed has its dependencies. */
  ghost predicate Installed(s: State) {
    var targets := if s.browser.browserOpened && s.runtime.runtimeBlockers != [] then ServerDirectories(s.project)
                   else if BrowserDirectories(s.project) != [] then BrowserDirectories(s.project)
                   else ManifestDirectories(s.project);
    targets != [] && forall d :: d in targets ==> d in s.project.dependencyDirectoriesChecked
  }

  /** The states in which a tool serves the phase. */
  ghost predicate Serves(s: State, tool: Tool) {
    var phase := PhaseOf(s);
    var starting := phase == StartRuntime;
    match tool
    case ListFiles => phase == Discover || (starting && Unexplained(s))
    case ReadFile => phase in {Discover, InspectStartup} || (starting && Unexplained(s))
    case Grep => phase in {Discover, InspectStartup} || (starting && Unexplained(s))
    case InstallDependencies => phase == Discover || (starting && !Installed(s))
    case StartProcess => phase == Discover || starting
    case RunCommand => phase == Discover || (starting && (Unexplained(s) || !Derived(s)))
    case RunBash => phase == Discover || (starting && (Unexplained(s) || !Derived(s)))
    case PreviewHtml =>
      phase == OpenBrowser
      || (starting && exists f :: f in s.project.listedFiles && (EndsIn(f, ".html") || EndsIn(f, ".htm")))
    case BrowserOpen => phase == OpenBrowser
    case BrowserInspect => phase in {InspectBrowser, Capture}
    case BrowserClose => phase in {InspectBrowser, Capture}
    case BrowserAct => phase == Capture
    case BrowserScreenshot => phase == Capture
    case InspectImages => phase == VisualReview
    case PublishOutput => phase == Publish
    case PollProcess => phase !in {Discover, InspectStartup}
    case ReadProcessOutput => phase !in {Discover, InspectStartup}
    case StopProcess => phase !in {Discover, InspectStartup}
    case OtherTool(_) => false
    case _ => WriteEffect in s.contract.requestedEffects && phase in {Discover, InspectStartup, StartRuntime, OpenBrowser}
  }

  /** The start command of a browser task follows from its files. */
  ghost predicate Derived(s: State) { s.contract.requireBrowser && BrowserStartSpec(s.project).Some? }

  lemma EndMeans(path: string, end: string)
    ensures EndsIn(path, end) <==> |end| <= |Lower(path)| && Lower(path)[|Lower(path)| - |end|..] == end
  {
    hide Lower;
    var folded := Lower(path);
    if |end| <= |folded| && folded[|folded| - |end|..] == end {
      assert folded == folded[..|folded| - |end|] + end;
    }
  }

  lemma HtmlEnds(path: string)
    ensures IsHtml(path) <==> EndsIn(path, ".html") || EndsIn(path, ".htm")
  {
    hide Lower, EndsIn;
    EndMeans(path, ".html");
    EndMeans(path, ".htm");
  }

  lemma ToolGroups(s: State, tool: Tool)
    ensures tool in READ_TOOLS <==> tool.ListFiles? || tool.ReadFile? || tool.Grep?
    ensures tool in LIFECYCLE <==> tool.PollProcess? || tool.ReadProcessOutput? || tool.StopProcess?
    ensures tool in COMMANDS <==> tool.RunCommand? || tool.RunBash?
    ensures tool in MutationTools(s) <==>
              WriteEffect in s.contract.requestedEffects
              && (tool.WriteFile? || tool.EditFile? || tool.ApplyPatch? || tool.MaterializeArtifact?)
  {
  }

  /** The surface of the start phase, by what is known of diagnosis, pages, dependencies and the start command. */
  lemma StartSurfaceByFlags(s: State, tool: Tool)
    ensures tool in StartRuntimeTools(s) <==>
              match tool
              case StartProcess => true
              case PollProcess => true
              case ReadProcessOutput => true
              case StopProcess => true
              case ListFiles => DiagnosisOpen(s)
              case ReadFile => DiagnosisOpen(s)
              case Grep => DiagnosisOpen(s)
              case RunCommand => DiagnosisOpen(s) || !Derived(s)
              case RunBash => DiagnosisOpen(s) || !Derived(s)
              case PreviewHtml => HasStaticHtml(s.project)
              case InstallDependencies => !DependenciesSettled(s)
              case WriteFile => WriteEffect in s.contract.requestedEffects
              case EditFile => WriteEffect in s.contract.requestedEffects
              case ApplyPatch => WriteEffect in s.contract.requestedEffects
              case MaterializeArtifact => WriteEffect in s.contract.requestedEffects
              case _ => false
  {
    hide DiagnosisOpen, HasStaticHtml, DependenciesSettled, BrowserStartSpec, READ_TOOLS, LIFECYCLE, COMMANDS,
      MutationTools;
    ToolGroups(s, tool);
  }

  lemma FlagsMean(s: State)
    ensures DiagnosisOpen(s) <==> Unexplained(s)
    ensures DependenciesSettled(s) <==> Installed(s)
    ensures HasStaticHtml(s.project)
            <==> exists f :: f in s.project.listedFiles && (EndsIn(f, ".html") || EndsIn(f, ".htm"))
  {
    hide CompanionSpec, ServerDirectories, BrowserDirectories, ManifestDirectories, IsHtml, EndsIn;
    forall f
      ensures IsHtml(f) <==> EndsIn(f, ".html") || EndsIn(f, ".htm")
    {
      HtmlEnds(f);
    }
  }

  lemma StartSurfaceMeans(s: State, tool: Tool)
    requires PhaseOf(s) == StartRuntime
    ensures tool in StartRuntimeTools(s) <==> Serves(s, tool)
  {
    hide PhaseOf, StartRuntimeTools, DiagnosisOpen, Unexplained, Installed, DependenciesSettled, HasStaticHtml, Derived,
      EndsIn;
    StartSurfaceByFlags(s, tool);
    FlagsMean(s);
  }

  lemma OtherSurfacesMean(s: State, base: set<Tool>, tool: Tool)
    requires PhaseOf(s) !in {StartRuntime, Complete}
    ensures tool in Wanted(s, base) <==> Serves(s, tool)
  {
    hide PhaseOf, StartRuntimeTools, Unexplained, Installed, Derived, EndsIn, READ_TOOLS, LIFECYCLE, COMMANDS,
      MutationTools;
    ToolGroups(s, tool);
    match PhaseOf(s) {
      case Discover =>
      case InspectStartup =>
      case OpenBrowser =>
      case InspectBrowser =>
      case _ =>
    }
  }

  /** Short of completion, exactly the tools that serve the phase are offered, as far as they exist. */
  lemma OfferedIffServing(s: State, base: set<Tool>, tool: Tool)
    requires PhaseOf(s) != Complete
    ensures tool in Permitted(s, base) <==> tool in base && Serves(s, tool)
  {
    hide PhaseOf, StartRuntimeTools, Serves, Active;
    PhaseIsFirstMissing(s, Complete);
    if PhaseOf(s) == StartRuntime {
      StartSurfaceMeans(s, tool);
    } else {
      hide Wanted;
      OtherSurfacesMean(s, base, tool);
    }
  }

  /** Once complete, everything is offered. */
  lemma CompleteOffersAll(s: State, base: set<Tool>)
    requires PhaseOf(s) == Complete
    ensures Permitted(s, base) == base
  {
    hide PhaseOf;
  }

  // ---------------------------------------------------------------- directories

  lemma {:induction false} RankedElements(ms: seq<(string, Manifest)>, r: (nat, string))
    ensures r in RankedFrontends(ms) <==>
              exists e :: e in ms && ServesUi(e.1) && r == (Markers(e.1), ParentDir(e.0))
  {
    hide ServesUi, Markers, ParentDir;
    if ms != [] {
      var front, last := ms[..|ms| - 1], ms[|ms| - 1];
      assert ms == front + [last];
      RankedElements(front, r);
      if e :| e in ms && ServesUi(e.1) && r == (Markers(e.1), ParentDir(e.0)) {
        assert e in front || e == last;
      }
    }
  }

  /** A manifest serves a UI if it depends on a frontend package or a script of it runs a frontend tool. */
  lemma ServingMeans(m: Manifest)
    ensures ServesUi(m) <==> (exists d :: d in m.dependencies && IsFrontendPackage(d)) || RunsFrontend(m.scriptText)
  {
    hide IsFrontendPackage, RunsFrontend;
    var marked := set d | d in m.dependencies && IsFrontendPackage(d);
    if d :| d in m.dependencies && IsFrontendPackage(d) {
      assert d in marked;
    }
    if marked != {} {
      var d :| d in marked;
    }
  }

  /** The frontend directories are those of the manifests that serve a UI. */
  lemma FrontendDirectories(p: Project, directory: string)
    ensures directory in BrowserDirectories(p) <==>
              exists e :: e in p.packageManifests && ServesUi(e.1) && ParentDir(e.0) == directory
  {
    hide RankedFrontends, ServesUi, Markers, ParentDir, BrowserDirectories;
    var ranked := FrontendsAreRanked(p);
    var directories := BrowserDirectories(p);
    if directory in directories {
      var i :| 0 <= i < |directories| && directories[i] == directory;
      assert ranked[i] in RankedFrontends(p.packageManifests);
      RankedElements(p.packageManifests, ranked[i]);
    }
    if e :| e in p.packageManifests && ServesUi(e.1) && ParentDir(e.0) == directory {
      RankedElements(p.packageManifests, (Markers(e.1), directory));
      var i :| 0 <= i < |ranked| && ranked[i] == (Markers(e.1), directory);
      assert directories[i] == directory;
    }
  }

  /** The manifest directories are those of all manifests, once each. */
  lemma DirectoriesOfManifests(p: Project, directory: string)
    ensures Distinct(ManifestDirectories(p))
    ensures directory in ManifestDirectories(p) <==>
              exists e :: e in p.packageManifests && ParentDir(e.0) == directory
  {
    hide ParentDir, SortBy, Dedup, LexLeq;
    var paths := ManifestPaths(p.packageManifests);
    var sorted := SortBy(paths, LexLeq);
    DedupElements(Parents(sorted));
    SortByElements(paths, LexLeq);
    forall path
      ensures path in sorted <==> path in paths
    {
      assert path in sorted <==> path in multiset(sorted);
      assert path in paths <==> path in multiset(paths);
    }
    if directory in ManifestDirectories(p) {
      var i :| 0 <= i < |Parents(sorted)| && Parents(sorted)[i] == directory;
      assert sorted[i] in paths;
      var k :| 0 <= k < |paths| && paths[k] == sorted[i];
      assert p.packageManifests[k] in p.packageManifests;
    }
    if e :| e in p.packageManifests && ParentDir(e.0) == directory {
      var k :| 0 <= k < |p.packageManifests| && p.packageManifests[k] == e;
      assert paths[k] == e.0 && e.0 in sorted;
      var i :| 0 <= i < |sorted| && sorted[i] == e.0;
      assert Parents(sorted)[i] == directory;
    }
  }

  lemma {:induction false} WithoutElements(xs: seq<string>, ys: seq<string>, x: string)
    ensures x in Without(xs, ys) <==> x in xs && x !in ys
  {
    if xs != [] {
      WithoutElements(xs[1..], ys, x);
      assert xs == [xs[0]] + xs[1..];
    }
  }

  /** The server directories are the ones with manifests none of which serves a UI. */
  lemma ServersServeNoUi(p: Project, directory: string)
    ensures directory in ServerDirectories(p) <==>
              && (exists e :: e in p.packageManifests && ParentDir(e.0) == directory)
              && forall e :: e in p.packageManifests && ParentDir(e.0) == directory ==> !ServesUi(e.1)
  {
    hide ParentDir, ServesUi, ManifestDirectories, BrowserDirectories;
    WithoutElements(ManifestDirectories(p), BrowserDirectories(p), directory);
    DirectoriesOfManifests(p, directory);
    FrontendDirectories(p, directory);
  }

  /** The command that a directory's first manifest declares: its dev script, or else its start script. */
  lemma {:induction false} FirstManifestDecides(ms: seq<(string, Manifest)>, directory: string, k: nat)
    requires k < |ms| && ParentDir(ms[k].0) == directory
    requires forall j :: 0 <= j < k ==> ParentDir(ms[j].0) != directory
    ensures FirstManifestIn(ms, directory) == ms[k].1
  {
    hide ParentDir;
    if k > 0 {
      assert ms[1..][k - 1] == ms[k];
      assert forall j :: 0 <= j < k - 1 ==> ms[1..][j] == ms[j + 1];
      FirstManifestDecides(ms[1..], directory, k - 1);
    }
  }

  lemma {:induction false} NoManifestNoScripts(ms: seq<(string, Manifest)>, directory: string)
    requires forall e :: e in ms ==> ParentDir(e.0) != directory
    ensures FirstManifestIn(ms, directory).scripts == {}
  {
    hide ParentDir;
    if ms != [] {
      assert ms[0] in ms;
      NoManifestNoScripts(ms[1..], directory);
    }
  }

  lemma StartCommandsMean(p: Project, directory: string)
    ensures var scripts := FirstManifestIn(p.packageManifests, directory).scripts;
            && (StartCommand(p, directory) == Some("npm run dev") <==> "dev" in scripts)
            && (StartCommand(p, directory) == Some("npm run start") <==> "start" in scripts && "dev" !in scripts)
            && (StartCommand(p, directory) == None <==> "dev" !in scripts && "start" !in scripts)
  {
    assert "npm run dev"[8] == 'd' && "npm run start"[8] == 's';
  }
}
