/**
 * The action coordinator as functions on its state: how a tool receipt changes the evidence, which phase the
 * evidence implies, which tools that phase permits, how a call is repaired and when it is rejected.
 */
module Workflow {
  import opened Text
  import opened Fingerprints

  // ---------------------------------------------------------------- data

  datatype Phase =
    | Discover | InspectStartup | StartRuntime | OpenBrowser | InspectBrowser
    | Capture | VisualReview | Publish | Complete

  datatype Tool =
    | ListFiles | ReadFile | Grep | InstallDependencies | RunCommand | RunBash | StartProcess | PollProcess
    | ReadProcessOutput | StopProcess | WriteFile | EditFile | ApplyPatch | MaterializeArtifact | PreviewHtml
    | BrowserOpen | BrowserInspect | BrowserAct | BrowserScreenshot | BrowserClose | InspectImages
    | PublishOutput | OtherTool(name: string)

  datatype Effect =
    | ReadEffect | WriteEffect | RunEffect | InstallEffect | PreviewEffect | ExternalEffect | OtherEffect(name: string)

  /** The receipt statuses the coordinator recognises. */
  datatype Status =
    | Running | Installed | AlreadySatisfied | EvaluatedImages | OutputPublished | OtherStatus(text: string)

  /** An inspected package.json: folded dependency names, folded script text, script names. */
  datatype Manifest = Manifest(dependencies: set<string>, scriptText: string, scripts: set<string>)

  datatype Target = Target(role: string, name: string, text: string, href: string, selector: string)

  datatype Asset = Asset(path: string, caption: string, kind: string)

  datatype Arg = Words(text: string) | Names(names: seq<string>) | Assets(assets: seq<Asset>)

  datatype Key =
    | PathKey | Cwd | Directory | ReadinessType | ReadinessValue | ProcessId | Url | Paths | Purpose
    | Criteria | AssetsKey | Message | SessionId | Command | OtherKey(name: string)

  type Args = map<Key, Arg>

  /** A tool's output together with the fields the coordinator reads from its JSON payload ("" when absent). */
  datatype Receipt = Receipt(
    text: string,
    lines: seq<string>,
    manifest: Option<Manifest>,
    status: Status,
    ready: bool,
    processId: string,
    readinessUrl: string,
    readinessType: string,
    readinessValue: string,
    browserOpened: Option<bool>,
    sessionId: string,
    url: string,
    urlPath: string,
    verificationPassed: bool,
    screenshotPath: string,
    workspacePath: string,
    sha256: string,
    perceptualHash: string,
    networkErrors: seq<string>,
    consoleErrors: seq<string>,
    pageErrors: seq<string>,
    visibleText: string,
    targets: seq<Target>,
    evaluations: seq<string>,
    selected: seq<string>)

  /** A receipt with an empty payload. */
  function Silent(): Receipt {
    Receipt("", [], None, OtherStatus(""), false, "", "", "", "", None, "", "", "", false, "", "", "", "", [], [], [],
            "", [], [], [])
  }

  /** What the user's request demands; fixed for the life of a coordinator. */
  datatype Contract = Contract(
    requestedEffects: set<Effect>,
    screenshotCount: nat,
    requireBrowser: bool,
    requireVisualReview: bool,
    requireOutput: bool)

  datatype Project = Project(
    listedFiles: seq<string>,
    readFiles: set<string>,
    packageManifests: seq<(string, Manifest)>,
    dependencyDirectoriesChecked: set<string>)

  datatype Runtime = Runtime(
    runtimeReady: bool,
    runtimeUrl: string,
    processId: string,
    processIds: seq<string>,
    runtimeBlockers: seq<string>,
    companionStartAttempted: bool,
    companionStartFailure: string,
    degradedRuntimeWarnings: seq<string>)

  datatype Browser = Browser(
    browserOpened: bool,
    browserInspected: bool,
    browserSessionId: string,
    browserUrl: string,
    visitedBrowserUrls: set<string>,
    interactionTargets: seq<Target>,
    actionPendingCapture: bool,
    browserReloadRequired: bool,
    pageDefects: seq<string>)

  datatype Gallery = Gallery(
    capturedPaths: seq<string>,
    capturedHashes: set<string>,
    capturedPerceptualHashes: set<string>)

  datatype Review = Review(visualReviewed: bool, selectedPaths: seq<string>, outputReady: bool)

  datatype Failure = Failure(lastFailure: string, lastFailureTool: Option<Tool>)

  /** All evidence of one action, grouped by what it is about. */
  datatype State = State(
    contract: Contract,
    project: Project,
    runtime: Runtime,
    browser: Browser,
    gallery: Gallery,
    review: Review,
    failure: Failure)

  /** A coordinator before any receipt. */
  function Fresh(contract: Contract): State {
    State(contract,
          Project([], {}, [], {}),
          Runtime(false, "", "", [], [], false, "", []),
          Browser(false, false, "", "", {}, [], false, false, []),
          Gallery([], {}, {}),
          Review(false, [], false),
          Failure("", None))
  }

  function TextArg(args: Args, key: Key): string {
    if key in args && args[key].Words? then args[key].text else ""
  }

  function OrElse(text: string, default: string): string { if text != "" then text else default }

  // ---------------------------------------------------------------- startup evidence

  predicate IsKnownStartup(name: string) {
    name in {
      "readme", "readme.md", "readme.txt", "package.json", "pyproject.toml",
      "requirements.txt", "pipfile", "poetry.lock", "uv.lock", "cargo.toml",
      "go.mod", "gemfile", "composer.json", "pom.xml", "build.gradle",
      "dockerfile", "docker-compose.yml", "compose.yml", "app.py", "main.py",
      "manage.py", "server.py", "vite.config.js", "vite.config.ts",
      "next.config.js", "next.config.mjs", "angular.json" }
  }

  predicate IsFrontendPackage(name: string) {
    name in {
      "react", "react-dom", "vue", "@angular/core", "svelte", "next",
      "nuxt", "vite", "@vitejs/plugin-react", "webpack-dev-server" }
  }

  predicate RunsFrontend(script: string) {
    MentionsAny(script, ["vite", "next dev", "nuxt", "webpack serve", "react-scripts"])
  }

  predicate IsStartupName(path: string) {
    var name := Lower(PathName(path));
    IsKnownStartup(name) || "readme" <= name
  }

  function StartupPriority(path: string): nat {
    var name := Lower(PathName(path));
    if "readme" <= name then 0
    else if name in {"package.json", "pyproject.toml", "requirements.txt", "pipfile"} then 1
    else 2
  }

  predicate StartupLeq(a: string, b: string) {
    var pa, pb := StartupPriority(a), StartupPriority(b);
    var da, db := CountChar(a, '/'), CountChar(b, '/');
    pa < pb || (pa == pb && (da < db || (da == db && LexLeq(Lower(a), Lower(b)))))
  }

  function StartupFiles(files: seq<string>): seq<string> {
    if files == [] then []
    else
      StartupFiles(files[..|files| - 1])
      + (if IsStartupName(files[|files| - 1]) then [files[|files| - 1]] else [])
  }

  function FirstSix(xs: seq<string>): seq<string> { if |xs| <= 6 then xs else xs[..6] }

  function StartupCandidates(p: Project): seq<string> {
    FirstSix(SortBy(StartupFiles(p.listedFiles), StartupLeq))
  }

  predicate IsPackageJson(path: string) { Lower(PathName(path)) == "package.json" }

  predicate InspectedStartup(s: State) {
    var candidates := StartupCandidates(s.project);
    if s.contract.requireBrowser && exists c :: c in candidates && IsPackageJson(c) then
      forall c | c in candidates && IsPackageJson(c) :: c in s.project.readFiles
    else
      exists c :: c in candidates && c in s.project.readFiles
  }

  predicate IsHtml(path: string) {
    var folded := Lower(path);
    (|folded| >= 5 && folded[|folded| - 5..] == ".html") || (|folded| >= 4 && folded[|folded| - 4..] == ".htm")
  }

  predicate HasStaticHtml(p: Project) { exists file :: file in p.listedFiles && IsHtml(file) }

  function PutManifest(ms: seq<(string, Manifest)>, path: string, m: Manifest): seq<(string, Manifest)> {
    if ms == [] then [(path, m)]
    else if ms[0].0 == path then [(path, m)] + ms[1..]
    else [ms[0]] + PutManifest(ms[1..], path, m)
  }

  function Markers(m: Manifest): nat { |set d | d in m.dependencies && IsFrontendPackage(d)| }

  predicate ServesUi(m: Manifest) { Markers(m) > 0 || RunsFrontend(m.scriptText) }

  function RankedFrontends(ms: seq<(string, Manifest)>): seq<(nat, string)> {
    if ms == [] then []
    else
      RankedFrontends(ms[..|ms| - 1])
      + (var last := ms[|ms| - 1]; if ServesUi(last.1) then [(Markers(last.1), ParentDir(last.0))] else [])
  }

  predicate FrontendLeq(a: (nat, string), b: (nat, string)) {
    a.0 > b.0 || (a.0 == b.0 && LexLeq(Lower(a.1), Lower(b.1)))
  }

  function Seconds(xs: seq<(nat, string)>): seq<string> { seq(|xs|, i requires 0 <= i < |xs| => xs[i].1) }

  /** Directories whose declared package graph serves a UI, best first. */
  function BrowserDirectories(p: Project): seq<string> {
    Seconds(SortBy(Dedup(RankedFrontends(p.packageManifests)), FrontendLeq))
  }

  function ManifestPaths(ms: seq<(string, Manifest)>): seq<string> {
    seq(|ms|, i requires 0 <= i < |ms| => ms[i].0)
  }

  function Parents(paths: seq<string>): seq<string> {
    seq(|paths|, i requires 0 <= i < |paths| => ParentDir(paths[i]))
  }

  function ManifestDirectories(p: Project): seq<string> {
    Dedup(Parents(SortBy(ManifestPaths(p.packageManifests), LexLeq)))
  }

  function FirstManifestIn(ms: seq<(string, Manifest)>, directory: string): Manifest {
    if ms == [] then Manifest({}, "", {})
    else if ParentDir(ms[0].0) == directory then ms[0].1
    else FirstManifestIn(ms[1..], directory)
  }

  function StartCommand(p: Project, directory: string): Option<string> {
    var scripts := FirstManifestIn(p.packageManifests, directory).scripts;
    if "dev" in scripts then Some("npm run dev") else if "start" in scripts then Some("npm run start") else None
  }

  datatype StartSpec = StartSpec(command: string, cwd: string, readinessUrl: string)

  function BrowserStartSpec(p: Project): Option<StartSpec> {
    var preferred := BrowserDirectories(p);
    if |preferred| != 1 then None
    else match StartCommand(p, preferred[0])
      case None => None
      case Some(command) => Some(StartSpec(command, preferred[0], ""))
  }

  function ServerDirectories(p: Project): seq<string> {
    Without(ManifestDirectories(p), BrowserDirectories(p))
  }

  function Without(xs: seq<string>, ys: seq<string>): seq<string> {
    if xs == [] then [] else (if xs[0] in ys then [] else [xs[0]]) + Without(xs[1..], ys)
  }

  function DigitRun(s: string): (n: nat)
    ensures n <= |s|
  {
    if s != "" && IsDigit(s[0]) then 1 + DigitRun(s[1..]) else 0
  }

  /** The loopback origin that starts at the beginning of `text`, if one does. */
  function OriginAt(text: string): Option<string> {
    var folded := Lower(text);
    var scheme := if "https://" <= folded then 8 else if "http://" <= folded then 7 else 0;
    if scheme == 0 then None
    else
      var host := if "localhost" <= folded[scheme..] then 9
                  else if "127.0.0.1" <= folded[scheme..] then 9
                  else if "[::1]" <= folded[scheme..] then 5 else 0;
      if host == 0 then None
      else
        var rest := text[scheme + host..];
        var run := if rest != "" && rest[0] == ':' then DigitRun(rest[1..]) else 0;
        Some(text[..scheme + host + (if run == 0 then 0 else 1 + if run > 5 then 5 else run)])
  }

  function FindOrigin(text: string): Option<string> {
    if OriginAt(text).Some? then OriginAt(text)
    else if text == "" then None
    else FindOrigin(text[1..])
  }

  /** The companion service command, only when receipts prove every part of it. */
  function CompanionSpec(s: State): Option<StartSpec> {
    if s.runtime.runtimeBlockers == [] || s.runtime.companionStartAttempted then None
    else
      var servers := ServerDirectories(s.project);
      if servers == [] then None
      else
        match (StartCommand(s.project, servers[0]), FindOrigin(Join(s.runtime.runtimeBlockers, " ")))
        case (Some(command), Some(origin)) => Some(StartSpec(command, servers[0], origin))
        case _ => None
  }

  // ---------------------------------------------------------------- phase and permitted tools

  predicate Active(s: State) {
    s.contract.requestedEffects * {RunEffect, InstallEffect, PreviewEffect} != {}
    || s.contract.requireBrowser || s.contract.screenshotCount > 0
  }

  predicate NeedsRuntime(s: State) { RunEffect in s.contract.requestedEffects }

  function PhaseOf(s: State): Phase {
    if !Active(s) then Complete
    else if NeedsRuntime(s) && !s.runtime.runtimeReady then
      if s.project.listedFiles == [] then Discover
      else if StartupCandidates(s.project) != [] && !InspectedStartup(s) then InspectStartup
      else StartRuntime
    else if s.contract.requireBrowser && !s.browser.browserOpened then OpenBrowser
    else if s.contract.requireBrowser && !s.browser.browserInspected then InspectBrowser
    else if |s.gallery.capturedPaths| < s.contract.screenshotCount then Capture
    else if s.contract.requireVisualReview && !s.review.visualReviewed then VisualReview
    else if s.contract.requireOutput && !s.review.outputReady then Publish
    else Complete
  }

  const READ_TOOLS: set<Tool> := {ListFiles, ReadFile, Grep}
  const LIFECYCLE: set<Tool> := {PollProcess, ReadProcessOutput, StopProcess}
  const WRITE_TOOLS: set<Tool> := {WriteFile, EditFile, ApplyPatch, MaterializeArtifact}
  const COMMANDS: set<Tool> := {RunCommand, RunBash}

  function MutationTools(s: State): set<Tool> { if WriteEffect in s.contract.requestedEffects then WRITE_TOOLS else {} }

  /** A start_process failure that no companion command explains re-opens source reading. */
  predicate DiagnosisOpen(s: State) {
    s.failure.lastFailure != "" && s.failure.lastFailureTool == Some(StartProcess) && CompanionSpec(s).None?
  }

  function InstallTargets(s: State): seq<string> {
    if s.browser.browserOpened && s.runtime.runtimeBlockers != [] then ServerDirectories(s.project)
    else if BrowserDirectories(s.project) != [] then BrowserDirectories(s.project)
    else ManifestDirectories(s.project)
  }

  predicate DependenciesSettled(s: State) {
    InstallTargets(s) != [] && forall d | d in InstallTargets(s) :: d in s.project.dependencyDirectoriesChecked
  }

  function StartRuntimeTools(s: State): set<Tool> {
    var startup := LIFECYCLE + MutationTools(s) + {InstallDependencies, StartProcess};
    var commands := if s.contract.requireBrowser && BrowserStartSpec(s.project).Some? then startup
                    else startup + COMMANDS;
    var diagnosis := if DiagnosisOpen(s) then commands + READ_TOOLS + COMMANDS else commands;
    var preview := if HasStaticHtml(s.project) then diagnosis + {PreviewHtml} else diagnosis;
    if DependenciesSettled(s) then preview - {InstallDependencies} else preview
  }

  function Wanted(s: State, base: set<Tool>): set<Tool> {
    match PhaseOf(s)
    case Discover => READ_TOOLS + MutationTools(s) + {InstallDependencies, StartProcess} + COMMANDS
    case InspectStartup => {ReadFile, Grep} + MutationTools(s)
    case StartRuntime => StartRuntimeTools(s)
    case OpenBrowser => LIFECYCLE + MutationTools(s) + {BrowserOpen, PreviewHtml}
    case InspectBrowser => LIFECYCLE + {BrowserInspect, BrowserClose}
    case Capture => LIFECYCLE + {BrowserInspect, BrowserAct, BrowserScreenshot, BrowserClose}
    case VisualReview => LIFECYCLE + {InspectImages}
    case Publish => LIFECYCLE + {PublishOutput}
    case Complete => base
  }

  function Permitted(s: State, base: set<Tool>): set<Tool> {
    if Active(s) then base * Wanted(s, base) else base
  }

  // ---------------------------------------------------------------- observing receipts

  predicate MentionsRefusal(folded: string) {
    MentionsAny(folded, ["err_connection_refused", "not accepting connections", "connection refused"])
  }

  predicate IsCritical(folded: string) {
    MentionsAny(folded, [
      "err_connection_refused", "connection refused", "err_name_not_resolved",
      "err_connection_timed_out", "http 500", "http 502", "http 503", "http 504"])
  }

  function ObserveFailure(s: State, tool: Tool, args: Args, text: string): State {
    var failure := if |text| <= 1000 then text else text[..1000];
    var s1 := s.(failure := Failure(failure, Some(tool)));
    if tool == StartProcess then
      var directory := NormPath(OrElse(TextArg(args, Cwd), "."));
      if s.browser.browserOpened && s.runtime.runtimeBlockers != [] && directory in ServerDirectories(s.project)
      then s1.(runtime := s.runtime.(companionStartAttempted := true, companionStartFailure := failure))
      else s1
    else if tool == BrowserOpen && MentionsRefusal(Lower(failure))
    then s1.(runtime := s.runtime.(runtimeReady := false))
    else s1
  }

  function ListedPaths(lines: seq<string>): seq<string> {
    if lines == [] then []
    else
      var front := ListedPaths(lines[..|lines| - 1]);
      var path := NormPath(lines[|lines| - 1]);
      if path == "" || path[|path| - 1] == '/' || path in front then front else front + [path]
  }

  function ReadProjectFile(p: Project, args: Args, r: Receipt): Project {
    var path := NormPath(TextArg(args, PathKey));
    p.(readFiles := if path == "" then p.readFiles else p.readFiles + {path},
       packageManifests := if IsPackageJson(path) && r.manifest.Some?
                           then PutManifest(p.packageManifests, path, r.manifest.value)
                           else p.packageManifests)
  }

  function NormDirectory(text: string): string {
    OrElse(Trim(NormPath(OrElse(text, ".")), IsSlash), ".")
  }

  function NoteInstall(p: Project, args: Args, r: Receipt): Project {
    if r.status in {Installed, AlreadySatisfied}
    then p.(dependencyDirectoriesChecked :=
              p.dependencyDirectoriesChecked + {NormDirectory(TextArg(args, Directory))})
    else p
  }

  predicate ReadyReceipt(r: Receipt) { r.ready && r.status == Running }

  function StartedUrl(url: string, isOpen: bool, args: Args, r: Receipt): string {
    var current := if url == "" || !isOpen then r.readinessUrl else url;
    var kind := OrElse(r.readinessType, TextArg(args, ReadinessType));
    var value := OrElse(r.readinessValue, TextArg(args, ReadinessValue));
    if current != "" then current
    else if kind == "url" then value
    else if kind == "port" && AllDigits(value) then "http://127.0.0.1:" + value
    else ""
  }

  /** A healthy companion start while the page reports blockers: the page must be reloaded. */
  predicate Unblocks(s: State, r: Receipt) {
    ReadyReceipt(r) && s.browser.browserOpened && s.runtime.runtimeBlockers != []
  }

  function NoteProcess(t: Runtime, r: Receipt): Runtime {
    var process := OrElse(r.processId, t.processId);
    t.(processId := process,
       processIds := if process == "" || process in t.processIds then t.processIds else t.processIds + [process])
  }

  function ObserveStart(s: State, args: Args, r: Receipt): State {
    var url := StartedUrl(s.runtime.runtimeUrl, s.browser.browserOpened, args, r);
    s.(runtime := NoteProcess(s.runtime, r).(
         runtimeUrl := url,
         runtimeReady := ReadyReceipt(r) && (s.contract.requireBrowser ==> url != ""),
         runtimeBlockers := if Unblocks(s, r) then [] else s.runtime.runtimeBlockers),
       browser := if Unblocks(s, r) then s.browser.(browserReloadRequired := true, browserInspected := false)
                  else s.browser)
  }

  function Fold(text: string): string { Lower(Strip(text)) }

  predicate PerceptuallyDuplicate(candidate: string, existing: set<string>) {
    exists known :: known in existing && Near(candidate, known)
  }

  /** A capture that adds nothing: no path, a known digest, a near-duplicate picture, or a known path. */
  predicate Redundant(g: Gallery, path: string, digest: string, perceptual: string) {
    path == ""
    || (Fold(digest) != "" && Fold(digest) in g.capturedHashes)
    || PerceptuallyDuplicate(Fold(perceptual), g.capturedPerceptualHashes)
    || path in g.capturedPaths
  }

  function AddCapture(g: Gallery, path: string, digest: string, perceptual: string): Gallery {
    if Redundant(g, path, digest, perceptual) then g
    else Gallery(g.capturedPaths + [path],
                 if Fold(digest) == "" then g.capturedHashes else g.capturedHashes + {Fold(digest)},
                 if Fold(perceptual) == "" then g.capturedPerceptualHashes
                 else g.capturedPerceptualHashes + {Fold(perceptual)})
  }

  function CapturePath(r: Receipt): string { OrElse(r.screenshotPath, r.workspacePath) }

  function CaptureReceipt(g: Gallery, r: Receipt): Gallery {
    AddCapture(g, CapturePath(r), r.sha256, r.perceptualHash)
  }

  predicate Opened(r: Receipt) { r.browserOpened.Some? && r.browserOpened.value }

  predicate NotDenied(r: Receipt) { r.browserOpened.None? || r.browserOpened.value }

  function ObservePreview(s: State, r: Receipt): State {
    s.(runtime := s.runtime.(runtimeReady := true, runtimeUrl := OrElse(r.url, s.runtime.runtimeUrl)),
       browser := s.browser.(browserOpened := Opened(r), browserInspected := r.verificationPassed),
       gallery := AddCapture(s.gallery, r.screenshotPath, r.sha256, ""))
  }

  function SeeUrl(b: Browser, r: Receipt): Browser {
    var value := Strip(r.url);
    if value == "" then b
    else b.(browserUrl := value, visitedBrowserUrls := b.visitedBrowserUrls + {OrElse(r.urlPath, "/")})
  }

  function SeeTargets(b: Browser, r: Receipt): Browser {
    if r.targets == [] then b else b.(interactionTargets := r.targets)
  }

  function AtSession(b: Browser, r: Receipt, isOpen: bool): Browser {
    b.(browserOpened := isOpen, browserSessionId := OrElse(r.sessionId, b.browserSessionId))
  }

  function ObserveOpen(s: State, r: Receipt): State {
    s.(runtime := s.runtime.(runtimeUrl := OrElse(r.url, s.runtime.runtimeUrl)),
       browser := SeeTargets(SeeUrl(AtSession(s.browser, r, Opened(r)), r), r))
  }

  function CriticalAmong(errors: seq<string>): seq<string> {
    if errors == [] then []
    else
      var text := Strip(errors[|errors| - 1]);
      CriticalAmong(errors[..|errors| - 1])
        + (if text != "" && IsCritical(Lower(text)) then [text] else [])
  }

  /** Runtime-breaking errors; cosmetic noise is ignored. */
  function CriticalErrors(r: Receipt): seq<string> {
    Dedup(CriticalAmong(r.networkErrors + r.consoleErrors))
  }

  function NonBlank(texts: seq<string>): seq<string> {
    if texts == [] then []
    else
      NonBlank(texts[..|texts| - 1])
      + (if Strip(texts[|texts| - 1]) == "" then [] else [Strip(texts[|texts| - 1])])
  }

  predicate UsableFrontend(c: Contract, r: Receipt) {
    c.requireBrowser && c.screenshotCount > 0 && (|r.visibleText| >= 80 || |r.targets| >= 2)
  }

  datatype PageState = Healthy | Degraded | Broken | Defective

  /** How one browser observation is classified. */
  function Classify(c: Contract, r: Receipt): PageState {
    if CriticalErrors(r) != [] then (if UsableFrontend(c, r) then Degraded else Broken)
    else if Dedup(NonBlank(r.pageErrors)) != [] then Defective
    else Healthy
  }

  function PageRuntime(t: Runtime, page: PageState, r: Receipt): Runtime {
    match page
    case Healthy => t.(runtimeBlockers := [])
    case Degraded =>
      t.(runtimeBlockers := [],
         degradedRuntimeWarnings := Dedup(t.degradedRuntimeWarnings + CriticalErrors(r)))
    case Broken => t.(runtimeBlockers := CriticalErrors(r), runtimeReady := false)
    case Defective => t.(runtimeBlockers := [])
  }

  function PageBrowser(b: Browser, page: PageState, r: Receipt, acted: bool): Browser {
    match page
    case Broken => b.(browserInspected := false)
    case Defective =>
      b.(pageDefects := Dedup(b.pageDefects + Dedup(NonBlank(r.pageErrors))),
         browserReloadRequired := true, browserInspected := false)
    case _ =>
      b.(browserReloadRequired := false, browserInspected := true,
         actionPendingCapture := b.actionPendingCapture || acted)
  }

  function ObservePage(s: State, r: Receipt, acted: bool): State {
    var page := Classify(s.contract, r);
    var seen := SeeTargets(SeeUrl(AtSession(s.browser, r, s.browser.browserOpened || NotDenied(r)), r), r);
    s.(runtime := PageRuntime(s.runtime, page, r), browser := PageBrowser(seen, page, r, acted))
  }

  function ObserveScreenshot(s: State, r: Receipt): State {
    s.(browser := AtSession(s.browser, r, s.browser.browserOpened || NotDenied(r)).(actionPendingCapture := false),
       gallery := CaptureReceipt(s.gallery, r))
  }

  function Evaluated(r: Receipt): set<string> { set path | path in r.evaluations }

  function SelectedAmong(selected: seq<string>, evaluated: set<string>): seq<string> {
    if selected == [] then []
    else
      var path := Strip(selected[|selected| - 1]);
      SelectedAmong(selected[..|selected| - 1], evaluated) + (if path in evaluated then [path] else [])
  }

  function ReviewImages(v: Review, g: Gallery, r: Receipt): Review {
    if r.status != EvaluatedImages then v
    else v.(visualReviewed := forall path | path in g.capturedPaths :: path in Evaluated(r),
            selectedPaths := Dedup(SelectedAmong(r.selected, Evaluated(r))))
  }

  function ObserveSuccess(s: State, tool: Tool, args: Args, r: Receipt): State {
    match tool
    case ListFiles => s.(project := s.project.(listedFiles := ListedPaths(r.lines)))
    case ReadFile => s.(project := ReadProjectFile(s.project, args, r))
    case InstallDependencies => s.(project := NoteInstall(s.project, args, r))
    case StartProcess => ObserveStart(s, args, r)
    case RunCommand => ObserveCommand(s)
    case RunBash => ObserveCommand(s)
    case PreviewHtml => ObservePreview(s, r)
    case BrowserOpen => ObserveOpen(s, r)
    case BrowserInspect => ObservePage(s, r, false)
    case BrowserAct => ObservePage(s, r, true)
    case BrowserScreenshot => ObserveScreenshot(s, r)
    case InspectImages => s.(review := ReviewImages(s.review, s.gallery, r))
    case PublishOutput => s.(review := s.review.(outputReady := s.review.outputReady || r.status == OutputPublished))
    case _ => s
  }

  function ObserveCommand(s: State): State {
    if s.contract.requireBrowser then s else s.(runtime := s.runtime.(runtimeReady := true))
  }

  function Observe(s: State, tool: Tool, args: Args, r: Receipt, ok: bool): State {
    if ok then ObserveSuccess(s.(failure := Failure("", None)), tool, args, r)
    else ObserveFailure(s, tool, args, r.text)
  }

  // ---------------------------------------------------------------- validating and repairing calls

  datatype Verdict =
    | Accepted | RuntimeStillNeeded | RuntimeNotReady | UrlNotVerified | UrlMismatch | NestedManifests
    | NoReadinessSignal | NoReadinessValue | ReadinessNotAddressable | NotTheFrontend | BrowserClosed
    | AlreadyInspected | PageNotInspected | CapturePending | CapturesMissing | NotReviewed | NothingSelected

  function NormUrl(url: string): string { TrimRight(Strip(url), IsSlash) }

  function ValidateStart(s: State, args: Args): Verdict {
    var kind := Fold(OrElse(TextArg(args, ReadinessType), "none"));
    var value := Strip(TextArg(args, ReadinessValue));
    if kind == "none" then NoReadinessSignal
    else if kind in {"port", "url", "log"} && value == "" then NoReadinessValue
    else if s.contract.requireBrowser && kind !in {"port", "url"} then ReadinessNotAddressable
    else if s.contract.requireBrowser && !s.browser.browserOpened && BrowserDirectories(s.project) != []
         && NormDirectory(TextArg(args, Cwd)) !in BrowserDirectories(s.project) then NotTheFrontend
    else Accepted
  }

  function Validate(s: State, tool: Tool, args: Args): Verdict {
    if !Active(s) then Accepted
    else if tool == StopProcess then
      if s.contract.requireBrowser && s.runtime.runtimeReady && !s.browser.browserOpened && s.runtime.runtimeBlockers == []
         && Strip(TextArg(args, ProcessId)) in s.runtime.processIds
      then RuntimeStillNeeded else Accepted
    else if tool == BrowserOpen then
      if !NeedsRuntime(s) then Accepted
      else if !s.runtime.runtimeReady then RuntimeNotReady
      else if NormUrl(s.runtime.runtimeUrl) == "" then UrlNotVerified
      else if NormUrl(TextArg(args, Url)) != NormUrl(s.runtime.runtimeUrl) then UrlMismatch
      else Accepted
    else if tool == InstallDependencies then
      var directory := NormPath(OrElse(TextArg(args, Directory), "."));
      if directory in {"", "."} && "." !in ManifestDirectories(s.project) && |ManifestDirectories(s.project)| > 1
      then NestedManifests else Accepted
    else if tool == StartProcess then ValidateStart(s, args)
    else if tool in {BrowserInspect, BrowserAct, BrowserScreenshot} then
      if !s.browser.browserOpened then BrowserClosed
      else if tool == BrowserInspect && s.browser.browserInspected && !s.browser.browserReloadRequired then AlreadyInspected
      else if tool == BrowserScreenshot && s.contract.screenshotCount > 0 && !s.browser.browserInspected
      then PageNotInspected
      else if tool == BrowserAct && s.browser.actionPendingCapture then CapturePending
      else Accepted
    else if tool == InspectImages && |s.gallery.capturedPaths| < s.contract.screenshotCount then CapturesMissing
    else if tool == PublishOutput && s.contract.requireVisualReview then
      if !s.review.visualReviewed then NotReviewed
      else if s.review.selectedPaths == [] then NothingSelected
      else Accepted
    else Accepted
  }

  // The first and last characters of these texts stand apart because proofs look only at them.

  function ReviewPurpose(paths: seq<string>): string {
    "E" + "valuate and rank the captured application states for the requested final output."
  }

  function ReviewCriteria(paths: seq<string>): string {
    "C" + "heck visible correctness, clarity, composition, feature coverage, distinctness, "
    + "legibility, and the absence of loading, error, or broken UI states."
  }

  function LimitationNote(warnings: seq<string>): string {
    if warnings == [] then ""
    else "L" + "imitation: an optional companion service was unavailable during capture; "
         + "only visibly complete, unaffected frontend states were selected" + "."
  }

  function FillBlank(args: Args, key: Key, text: string): Args {
    if Strip(TextArg(args, key)) == "" then args[key := Words(text)] else args
  }

  function RewriteReview(s: State, args: Args): Args {
    if s.gallery.capturedPaths == [] then args
    else FillBlank(FillBlank(args[Paths := Names(s.gallery.capturedPaths)], Purpose, ReviewPurpose(s.gallery.capturedPaths)),
                   Criteria, ReviewCriteria(s.gallery.capturedPaths))
  }

  function ExpectedAssets(paths: seq<string>): seq<Asset> {
    seq(|paths|, i requires 0 <= i < |paths| => Asset(paths[i], PathStem(ToSlash(paths[i])), "image"))
  }

  function SuppliedPaths(args: Args): seq<string> {
    if AssetsKey in args && args[AssetsKey].Assets?
    then var assets := args[AssetsKey].assets;
         seq(|assets|, i requires 0 <= i < |assets| => NormPath(assets[i].path))
    else []
  }

  function ExpectedPaths(paths: seq<string>): seq<string> {
    seq(|paths|, i requires 0 <= i < |paths| => ToSlash(paths[i]))
  }

  function RewritePublish(s: State, args: Args): Args {
    if s.review.selectedPaths == [] then args
    else
      var bound := if SuppliedPaths(args) == ExpectedPaths(s.review.selectedPaths) then args
                   else args[AssetsKey := Assets(ExpectedAssets(s.review.selectedPaths))];
      var message := Strip(TextArg(args, Message));
      var limitation := LimitationNote(s.runtime.degradedRuntimeWarnings);
      if limitation == "" || Contains(message, limitation) then bound
      else bound[Message := Words(Strip(message + "\n\n" + limitation))]
  }

  function RewriteOpen(s: State, args: Args): Args {
    if s.runtime.runtimeReady && s.runtime.runtimeUrl != "" && NormUrl(TextArg(args, Url)) != NormUrl(s.runtime.runtimeUrl)
    then args[Url := Words(s.runtime.runtimeUrl)] else args
  }

  function RewriteSession(s: State, args: Args): Args {
    if Strip(TextArg(args, SessionId)) == "" && s.browser.browserSessionId != ""
    then args[SessionId := Words(s.browser.browserSessionId)] else args
  }

  function RewriteInspect(s: State, args: Args): Args {
    var bound := RewriteSession(s, args);
    if s.browser.browserReloadRequired && s.runtime.runtimeUrl != ""
       && NormUrl(TextArg(args, Url)) != NormUrl(s.runtime.runtimeUrl)
    then bound[Url := Words(s.runtime.runtimeUrl)] else bound
  }

  /** The digits of ":12345/" or a trailing ":12345". */
  function PortIn(text: string): Option<string> {
    if text == "" then None
    else
      var run := if text[0] == ':' then DigitRun(text[1..]) else 0;
      if 1 <= run <= 5 && (|text| == 1 + run || text[1 + run] == '/') then Some(text[1..1 + run])
      else PortIn(text[1..])
  }

  function SetText(args: Args, key: Key, value: string): Args {
    if Strip(TextArg(args, key)) != value then args[key := Words(value)] else args
  }

  function RepairPort(args: Args): Args {
    var value := Strip(TextArg(args, ReadinessValue));
    if Lower(TextArg(args, ReadinessType)) == "port" && !AllDigits(value) && PortIn(value).Some?
    then args[ReadinessValue := Words(PortIn(value).value)] else args
  }

  function RepairFrontend(args: Args, spec: StartSpec): Args {
    RepairPort(SetText(SetText(args, Command, spec.command), Cwd, spec.cwd))
  }

  /** The last resort for start_process: leave the workspace root for the only frontend. */
  function LeaveRoot(s: State, args: Args): Args {
    if !s.browser.browserOpened && NormPath(OrElse(TextArg(args, Cwd), ".")) in {"", "."}
       && |BrowserDirectories(s.project)| == 1
    then args[Cwd := Words(BrowserDirectories(s.project)[0])] else args
  }

  function WithCompanion(args: Args, spec: StartSpec): Args {
    args[Command := Words(spec.command)][Cwd := Words(spec.cwd)]
      [ReadinessType := Words("url")][ReadinessValue := Words(spec.readinessUrl)]
  }

  function RewriteStart(s: State, args: Args): Args {
    if s.browser.browserOpened && CompanionSpec(s).Some? then WithCompanion(args, CompanionSpec(s).value)
    else if !s.browser.browserOpened && BrowserStartSpec(s.project).Some?
         && RepairFrontend(args, BrowserStartSpec(s.project).value) != args
    then RepairFrontend(args, BrowserStartSpec(s.project).value)
    else LeaveRoot(s, args)
  }

  function RewriteInstall(s: State, args: Args): Args {
    var preferred := BrowserDirectories(s.project);
    if NormPath(OrElse(TextArg(args, Directory), ".")) in {"", "."} && "." !in ManifestDirectories(s.project)
       && |preferred| == 1 && preferred[0] in ManifestDirectories(s.project)
    then args[Directory := Words(preferred[0])] else args
  }

  /** The arguments the runtime executes; resolving browser_act targets against the DOM is not modelled. */
  function Rewrite(s: State, tool: Tool, args: Args): Args {
    if tool == InspectImages then RewriteReview(s, args)
    else if tool == PublishOutput then RewritePublish(s, args)
    else if tool == BrowserOpen then RewriteOpen(s, args)
    else if tool == BrowserInspect then RewriteInspect(s, args)
    else if tool in {BrowserAct, BrowserScreenshot, BrowserClose} then RewriteSession(s, args)
    else if tool == StartProcess then RewriteStart(s, args)
    else if tool == InstallDependencies then RewriteInstall(s, args)
    else args
  }
}
