/** Both dead ends can be reached from a fresh coordinator. */
module DeadEnds {
  import opened Text
  import opened Fingerprints
  import opened Workflow
  import opened GatedRuns
  import opened Completion
  import opened Progress

  function RootedPath(): string { "/ws/package.json" }

  /** A frontend whose only manifest was read by an absolute path, in a project without startup files or pages. */
  function AbsoluteManifestRun(): seq<Event> {
    [Turn, Call(ReadFile, ReadArgs(RootedPath()), ReactManifest(), true),
     Call(ListFiles, map[], Silent().(lines := ["a"]), true), Turn]
  }

  lemma {:induction false} SplitFirst(first: string, rest: string)
    requires '/' !in first
    ensures Split(first + "/" + rest, '/') == [first] + Split(rest, '/')
  {
    var text := first + "/" + rest;
    if first == "" {
      assert text[1..] == rest;
    } else {
      SplitFirst(first[1..], rest);
      assert text[1..] == first[1..] + "/" + rest;
      assert [first[0]] + first[1..] == first;
    }
  }

  lemma RootedName(path: string, directory: string, name: string)
    requires path == "/" + directory + "/" + name && '/' !in directory && '/' !in name
    requires directory != "" && directory != "." && name != "" && name != "." && Trimmed(name, IsSpace)
    requires forall i | 0 <= i < |path| :: path[i] != '\\'
    ensures NormPath(path) == path && PathName(path) == name && ParentDir(path) == "/" + directory
  {
    hide NormPath, Components, Split;
    assert path[|path| - 1] == name[|name| - 1];
    PlainNorm(path);
    RootedParts(path, directory, name);
    assert [directory, name][..1] == [directory];
    assert PathRoot(path) == "/" by { assert path[1] == directory[0]; }
  }

  lemma PlainNorm(path: string)
    requires Trimmed(path, IsSpace) && forall i | 0 <= i < |path| :: path[i] != '\\'
    ensures NormPath(path) == path
  {
    hide Trim;
    TrimTrims(path, IsSpace);
    assert ToSlash(path) == path;
  }

  lemma RootedParts(path: string, directory: string, name: string)
    requires path == "/" + directory + "/" + name && '/' !in directory && '/' !in name
    requires directory != "" && directory != "." && name != "" && name != "."
    ensures Components(Split(path, '/')) == [directory, name]
  {
    hide Split;
    SplitFirst("", directory + "/" + name);
    assert "" + "/" + (directory + "/" + name) == path;
    SplitFirst(directory, name);
    NoSeparator(name, '/');
    assert Split(path, '/') == ["", directory, name];
    assert ["", directory, name][1..] == [directory, name] && [directory, name][1..] == [name] && [name][1..] == [];
    assert Components([name]) == [name];
    assert Components([directory, name]) == [directory, name];
  }

  lemma RootedManifestText()
    ensures NormPath(RootedPath()) == RootedPath() && IsPackageJson(RootedPath())
    ensures ParentDir(RootedPath()) == "/ws"
  {
    hide NormPath, PathName, Lower, ParentDir;
    assert RootedPath() == "/" + "ws" + "/" + "package.json";
    assert "/" + "ws" == "/ws";
    PlainName("package.json");
    RootedName(RootedPath(), "ws", "package.json");
  }

  function RootedProject(): Project {
    Project(["a"], {RootedPath()}, [(RootedPath(), Manifest({"react"}, "", {}))], {})
  }

  lemma SingleFrontend(p: Project, path: string, m: Manifest, directory: string)
    requires p.packageManifests == [(path, m)] && ParentDir(path) == directory && ServesUi(m) && m.scripts == {}
    ensures BrowserDirectories(p) == [directory] && BrowserStartSpec(p).None?
  {
    hide ParentDir, ServesUi, Markers, FrontendLeq;
    var ms := p.packageManifests;
    assert ms[..0] == [];
    assert RankedFrontends([]) == [];
    var ranked := [(Markers(m), directory)];
    assert RankedFrontends(ms) == ranked;
    assert ranked[..0] == [] && ranked[1..] == [];
    assert Dedup(ranked) == ranked;
    assert SortBy(ranked, FrontendLeq) == ranked;
    assert Seconds(ranked) == [directory];
    assert FirstManifestIn(ms, directory) == m;
  }

  lemma RootedProjectHasNoStart()
    ensures BrowserDirectories(RootedProject()) == ["/ws"] && BrowserStartSpec(RootedProject()).None?
  {
    hide ParentDir, ServesUi, RootedPath, BrowserDirectories, BrowserStartSpec;
    RootedManifestText();
    ReactServesUi();
    SingleFrontend(RootedProject(), RootedPath(), Manifest({"react"}, "", {}), "/ws");
  }

  lemma NothingToStartFrom()
    ensures StartupCandidates(RootedProject()) == [] && !HasStaticHtml(RootedProject())
  {
    hide PathName, IsKnownStartup;
    PlainName("a");
    NotStartup();
    assert ["a"][..0] == [];
    assert StartupFiles([]) == [];
    assert StartupFiles(["a"]) == [];
    assert Lower("a") == "a";
  }

  lemma NotStartup()
    ensures !IsKnownStartup("a")
  {
  }

  /** A request to run and preview a project, as the outcome contract builds it. */
  function RunContract(): Contract { Contract({RunEffect, PreviewEffect}, 0, true, false, true) }

  function DeadStartState(): State { Fresh(RunContract()).(project := RootedProject()) }

  lemma ReadsRootedManifest(s: State)
    requires s == Fresh(s.contract)
    ensures Observe(s, ReadFile, ReadArgs(RootedPath()), ReactManifest(), true)
            == s.(project := RootedProject().(listedFiles := []))
  {
    hide NormPath, IsPackageJson, RootedPath;
    RootedManifestText();
  }

  lemma ListsPlainFile(s: State)
    ensures Observe(s, ListFiles, map[], Silent().(lines := ["a"]), true)
            == s.(project := s.project.(listedFiles := ["a"]), failure := Failure("", None))
  {
    hide NormPath, ListedPaths;
    PlainName("a");
    OneLine("a");
  }

  lemma DiscoverReads(base: set<Tool>)
    requires {ListFiles, ReadFile} <= base
    ensures {ListFiles, ReadFile} <= Permitted(Fresh(RunContract()), base)
    ensures PhaseOf(Fresh(RunContract())) == Discover
    ensures PhaseOf(Fresh(RunContract()).(project := RootedProject().(listedFiles := []))) == Discover
  {
    hide StartupCandidates, InspectedStartup, StartRuntimeTools;
  }

  lemma IsDeadStart()
    ensures DeadStart(DeadStartState()) && PhaseOf(DeadStartState()) == StartRuntime
  {
    hide BrowserDirectories, BrowserStartSpec, StartupCandidates, HasStaticHtml;
    RootedProjectHasNoStart();
    NothingToStartFrom();
    assert "/ws"[0] == '/';
  }

  /** After the next turn the surface of a dead start holds nothing that leads out. */
  lemma NextTurnIsStuck(base: set<Tool>, rs: RunState)
    ensures DeadStart(rs.coord) ==> StuckStart(Next(base, rs, Turn))
    ensures DeadPublish(rs.coord) ==> StuckPublish(Next(base, rs, Turn))
  {
    hide Permitted, DeadStart, Idle, PhaseOf;
    forall tool | tool in Permitted(rs.coord, base)
      ensures DeadStart(rs.coord) ==> Idle(tool)
      ensures DeadPublish(rs.coord) ==> Lifecycle(tool) || tool == PublishOutput
    {
      if DeadStart(rs.coord) {
        DeadStartSurface(rs.coord, base, tool);
      }
      if DeadPublish(rs.coord) {
        PublishSurface(rs.coord, base, tool);
      }
    }
  }

  lemma StuckIsDoomed(rs: RunState)
    requires StuckStart(rs) || StuckPublish(rs)
    ensures Doomed(rs)
  {
    hide DeadStart, DeadPublish;
  }

  /** A run of a request to run and preview that no further gated call completes. */
  lemma DeadStartIsReachable(base: set<Tool>)
    requires {ListFiles, ReadFile} <= base
    ensures SoundContract(RunContract()) && Pending(base, Begin(RunContract()), AbsoluteManifestRun())
    ensures var end := After(base, Begin(RunContract()), AbsoluteManifestRun());
            DeadStart(end.coord) && Doomed(end) && forall n :: !Completable(base, end, n)
  {
    hide Observe, Rewrite, Validate, Permitted, RootedPath, DeadStart, PhaseOf, StuckStart, Doomed, Completable;
    var r0 := Begin(RunContract());
    DiscoverReads(base);
    ReadsRootedManifest(r0.coord);
    var r1 := Next(base, r0, Turn);
    var read := AbsoluteManifestRun()[1];
    FreeCalls(r1.coord, ReadFile, ReadArgs(RootedPath()));
    var r2 := Next(base, r1, read);
    var list := AbsoluteManifestRun()[2];
    FreeCalls(r2.coord, ListFiles, map[]);
    ListsPlainFile(r2.coord);
    var r3 := Next(base, r2, list);
    assert r3.coord == DeadStartState();
    IsDeadStart();
    NextTurnIsStuck(base, r3);
    OneEvent(base, r3, Turn, []);
    OneEvent(base, r2, list, [Turn]);
    OneEvent(base, r1, read, [list, Turn]);
    OneEvent(base, r0, Turn, [read, list, Turn]);
    assert [Turn] + [] == [Turn] && [list] + [Turn] == [list, Turn] && [read] + [list, Turn] == [read, list, Turn];
    assert [Turn] + [read, list, Turn] == AbsoluteManifestRun();
    StuckIsDoomed(Next(base, r3, Turn));
    StuckIsForever(base, Next(base, r3, Turn));
  }

  // ---------------------------------------------------------------- an empty selection

  function EmptySelectionRun(): seq<Event> {
    [Turn, Call(PreviewHtml, map[], GoodPreview(), true),
     Turn, Call(BrowserScreenshot, map[], Silent().(screenshotPath := "a"), true),
     Turn, Call(InspectImages, map[], Silent().(status := EvaluatedImages, evaluations := ["a"]), true), Turn]
  }

  function ReviewContract(): Contract { Contract({PreviewEffect}, 1, true, true, true) }

  function Previewed(): State {
    Fresh(ReviewContract()).(runtime := Runtime(true, "", "", [], [], false, "", []),
                             browser := Browser(true, true, "", "", {}, [], false, false, []))
  }

  function Captured(): State { Previewed().(gallery := Gallery(["a"], {}, {})) }

  lemma PreviewStep(base: set<Tool>)
    requires PreviewHtml in base
    ensures CanCall(base, Fresh(ReviewContract()), PreviewHtml, map[])
    ensures CallOn(Fresh(ReviewContract()), PreviewHtml, map[], GoodPreview()) == Previewed()
  {
    hide StartupCandidates, InspectedStartup, StartRuntimeTools, PerceptuallyDuplicate, Fold;
  }

  lemma ShotStep(base: set<Tool>)
    requires BrowserScreenshot in base
    ensures CanCall(base, Previewed(), BrowserScreenshot, map[])
    ensures CallOn(Previewed(), BrowserScreenshot, map[], Silent().(screenshotPath := "a")) == Captured()
  {
    hide StartupCandidates, InspectedStartup, StartRuntimeTools, PerceptuallyDuplicate, Fold;
    NoFingerprint({});
    assert [] + ["a"] == ["a"];
  }

  lemma EmptyReviewStep(base: set<Tool>)
    requires InspectImages in base
    ensures CanCall(base, Captured(), InspectImages, map[])
    ensures DeadPublish(CallOn(Captured(), InspectImages, map[],
                               Silent().(status := EvaluatedImages, evaluations := ["a"])))
  {
    hide StartupCandidates, InspectedStartup, StartRuntimeTools, Rewrite;
    assert ["a"][0] == "a";
  }

  /** A turn with one call. */
  lemma OneTurn(base: set<Tool>, rs: RunState, e: Event, es: seq<Event>)
    ensures var next := Next(base, Next(base, rs, Turn), e);
            && After(base, rs, [Turn, e] + es) == After(base, next, es)
            && (Pending(base, rs, [Turn, e] + es)
                <==> PhaseOf(rs.coord) != Complete && Enabled(Next(base, rs, Turn), e) && Pending(base, next, es))
  {
    hide Observe, Rewrite, Validate, Permitted, PhaseOf;
    OneEvent(base, Next(base, rs, Turn), e, es);
    OneEvent(base, rs, Turn, [e] + es);
    assert [Turn, e] + es == [Turn] + ([e] + es);
  }

  lemma ReviewPhases()
    ensures PhaseOf(Fresh(ReviewContract())) == OpenBrowser && PhaseOf(Previewed()) == Capture
    ensures PhaseOf(Captured()) == VisualReview
  {
    hide StartupCandidates, InspectedStartup;
  }

  /** A run of a screenshot request whose review selects nothing, and that no further gated call completes. */
  lemma DeadPublishIsReachable(base: set<Tool>)
    requires {PreviewHtml, BrowserScreenshot, InspectImages} <= base
    ensures SoundContract(ReviewContract()) && Pending(base, Begin(ReviewContract()), EmptySelectionRun())
    ensures var end := After(base, Begin(ReviewContract()), EmptySelectionRun());
            DeadPublish(end.coord) && Doomed(end) && forall n :: !Completable(base, end, n)
  {
    hide Observe, Rewrite, Validate, Permitted, DeadPublish, Silent, GoodPreview, PhaseOf, StuckPublish, Doomed,
      Completable;
    var es := EmptySelectionRun();
    PreviewStep(base);
    ShotStep(base);
    EmptyReviewStep(base);
    ReviewPhases();
    var r0 := Begin(ReviewContract());
    var r1 := Next(base, Next(base, r0, Turn), es[1]);
    var r2 := Next(base, Next(base, r1, Turn), es[3]);
    var r3 := Next(base, Next(base, r2, Turn), es[5]);
    NextTurnIsStuck(base, r3);
    DeadPublishIsActive(r3.coord);
    OneEvent(base, r3, Turn, []);
    OneTurn(base, r2, es[5], [Turn]);
    OneTurn(base, r1, es[3], [Turn, es[5], Turn]);
    OneTurn(base, r0, es[1], [Turn, es[3], Turn, es[5], Turn]);
    assert [Turn] + [] == [Turn] && [Turn, es[5]] + [Turn] == [Turn, es[5], Turn];
    assert [Turn, es[3]] + [Turn, es[5], Turn] == [Turn, es[3], Turn, es[5], Turn];
    assert [Turn, es[1]] + [Turn, es[3], Turn, es[5], Turn] == es;
    StuckIsDoomed(Next(base, r3, Turn));
    StuckIsForever(base, Next(base, r3, Turn));
  }

  lemma DeadPublishIsActive(s: State)
    requires DeadPublish(s)
    ensures PhaseOf(s) != Complete
  {
    hide PhaseOf;
  }
}
