/** The coordinator object: fields updated in place by receipts, each method tied to the Workflow functions. */
module Coordinator {
  import opened Text
  import opened Fingerprints
  import opened Workflow
  import opened GatedRuns
  import opened RewriteProofs
  import opened Rankings

  lemma SurfaceMeaning(s: State, base: set<Tool>)
    requires PhaseOf(s) != Complete
    ensures PublishOutput in Permitted(s, base) || InspectImages in Permitted(s, base) ==> Evidence(s)
    ensures Evidence(s) ==> OnlyLate(Permitted(s, base))
    ensures Permitted(s, base) * WRITE_TOOLS != {} ==> WriteEffect in s.contract.requestedEffects
  {
    hide Permitted, PhaseOf;
    var rs := Between(s, {});
    TurnFixesSurface(base, rs);
    if Permitted(s, base) * WRITE_TOOLS != {} {
      var tool :| tool in Permitted(s, base) && tool in WRITE_TOOLS;
      WritingIsRequested(s, base, tool);
    }
  }

  lemma WritingIsRequested(s: State, base: set<Tool>, tool: Tool)
    requires PhaseOf(s) != Complete && tool in Permitted(s, base) && tool in WRITE_TOOLS
    ensures WriteEffect in s.contract.requestedEffects
  {
    hide StartupCandidates, InspectedStartup, DiagnosisOpen, HasStaticHtml, DependenciesSettled, BrowserStartSpec;
  }

  lemma PublicationMeaning(s: State, args: Args)
    requires s.review.selectedPaths != []
    ensures StrippedSelection(s) ==> SuppliedPaths(RewritePublish(s, args)) == ExpectedPaths(s.review.selectedPaths)
    ensures s.runtime.degradedRuntimeWarnings != [] ==>
              Contains(Strip(TextArg(RewritePublish(s, args), Message)), LimitationNote(s.runtime.degradedRuntimeWarnings))
  {
    hide RewritePublish, StrippedSelection, SuppliedPaths, ExpectedPaths, LimitationNote, Contains, Strip;
    if StrippedSelection(s) {
      PublicationIsTheSelection(s, args);
    }
    if s.runtime.degradedRuntimeWarnings != [] {
      PublicationCarriesLimitation(s, args);
    }
  }

  ghost predicate SameElsewhere(a: Args, b: Args, keys: set<Key>) {
    forall k :: k !in keys ==> (k in a <==> k in b) && (k in a ==> a[k] == b[k])
  }

  class ActionExecutionCoordinator {
    var contract: Contract
    var project: Project
    var runtime: Runtime
    var browser: Browser
    var gallery: Gallery
    var review: Review
    var failure: Failure

    /** The evidence held by this object, as one value. */
    function View(): State
      reads this
    {
      State(contract, project, runtime, browser, gallery, review, failure)
    }

    constructor (effects: set<Effect>, shots: int, needsBrowser: bool, needsReview: bool, needsOutput: bool)
      ensures View() == Fresh(Contract(effects, if shots < 0 then 0 else shots, needsBrowser, needsReview, needsOutput))
    {
      contract := Contract(effects, if shots < 0 then 0 else shots, needsBrowser, needsReview, needsOutput);
      project := Project([], {}, [], {});
      runtime := Runtime(false, "", "", [], [], false, "", []);
      browser := Browser(false, false, "", "", {}, [], false, false, []);
      gallery := Gallery([], {}, {});
      review := Review(false, [], false);
      failure := Failure("", None);
    }

    method StartupFilesInOrder() returns (candidates: seq<string>)
      ensures candidates == StartupCandidates(project)
      ensures SortedBy(candidates, StartupLeq) && |candidates| <= 6
      ensures forall f :: f in project.listedFiles && IsStartupName(f) && f !in candidates ==>
                |candidates| == 6 && forall c :: c in candidates ==> StartupLeq(c, f)
    {
      hide IsStartupName, SortBy, FirstSix, StartupLeq;
      var ranked: seq<string> := [];
      for i := 0 to |project.listedFiles|
        invariant ranked == StartupFiles(project.listedFiles[..i])
      {
        assert project.listedFiles[..i + 1][..i] == project.listedFiles[..i];
        if IsStartupName(project.listedFiles[i]) {
          ranked := ranked + [project.listedFiles[i]];
        }
      }
      assert project.listedFiles[..|project.listedFiles|] == project.listedFiles;
      candidates := FirstSix(SortBy(ranked, StartupLeq));
      StartupCandidatesAreTheFirst(project);
    }

    method BrowserComponentDirectories() returns (directories: seq<string>)
      ensures directories == BrowserDirectories(project)
      ensures exists ranked :: Seconds(ranked) == directories && SortedBy(ranked, FrontendLeq)
                               && forall r :: r in ranked <==> r in RankedFrontends(project.packageManifests)
    {
      hide ServesUi, Markers, ParentDir, SortBy, Dedup, Seconds;
      var ranked: seq<(nat, string)> := [];
      for i := 0 to |project.packageManifests|
        invariant ranked == RankedFrontends(project.packageManifests[..i])
      {
        assert project.packageManifests[..i + 1][..i] == project.packageManifests[..i];
        var (path, manifest) := project.packageManifests[i];
        if ServesUi(manifest) {
          ranked := ranked + [(Markers(manifest), ParentDir(path))];
        }
      }
      assert project.packageManifests[..|project.packageManifests|] == project.packageManifests;
      directories := Seconds(SortBy(Dedup(ranked), FrontendLeq));
      ghost var best := FrontendsAreRanked(project);
    }

    /** What a starting action may use, tool by tool. */
    method StartRuntimeSurface() returns (wanted: set<Tool>)
      ensures wanted == StartRuntimeTools(View())
      ensures StartProcess in wanted && LIFECYCLE <= wanted
      ensures WRITE_TOOLS <= wanted <==> WriteEffect in contract.requestedEffects
      ensures forall tool :: tool in READ_TOOLS ==> (tool in wanted <==> DiagnosisOpen(View()))
      ensures forall tool :: tool in COMMANDS ==>
                (tool in wanted <==> DiagnosisOpen(View())
                                     || !(contract.requireBrowser && BrowserStartSpec(project).Some?))
      ensures PreviewHtml in wanted <==> HasStaticHtml(project)
      ensures InstallDependencies in wanted <==> !DependenciesSettled(View())
      ensures forall tool :: tool in wanted ==>
                tool in LIFECYCLE + WRITE_TOOLS + READ_TOOLS + COMMANDS
                        + {StartProcess, PreviewHtml, InstallDependencies}
    {
      hide DiagnosisOpen, HasStaticHtml, DependenciesSettled, BrowserStartSpec;
      wanted := LIFECYCLE + MutationTools(View()) + {InstallDependencies, StartProcess};
      if !(contract.requireBrowser && BrowserStartSpec(project).Some?) {
        wanted := wanted + COMMANDS;
      }
      if DiagnosisOpen(View()) {
        wanted := wanted + READ_TOOLS;
        wanted := wanted + COMMANDS;
      }
      if HasStaticHtml(project) {
        wanted := wanted + {PreviewHtml};
      }
      if DependenciesSettled(View()) {
        wanted := wanted - {InstallDependencies};
      }
    }

    /**
     * The tool surface of the current phase: part of the base, reviewing and publishing only on complete evidence and
     * then with nothing that could undo it, writing only when the user asked for it.
     */
    method PermittedTools(base: set<Tool>) returns (tools: set<Tool>)
      ensures tools == Permitted(View(), base)
      ensures tools <= base
      ensures PhaseOf(View()) != Complete && (PublishOutput in tools || InspectImages in tools) ==> Evidence(View())
      ensures PhaseOf(View()) != Complete && Evidence(View()) ==> OnlyLate(tools)
      ensures PhaseOf(View()) != Complete && tools * WRITE_TOOLS != {} ==> WriteEffect in contract.requestedEffects
    {
      hide StartRuntimeTools, PhaseOf;
      if PhaseOf(View()) != Complete {
        SurfaceMeaning(View(), base);
      }
      if !Active(View()) {
        return base;
      }
      var mutation := MutationTools(View());
      var wanted: set<Tool>;
      match PhaseOf(View()) {
        case Discover => wanted := READ_TOOLS + mutation + {InstallDependencies, StartProcess} + COMMANDS;
        case InspectStartup => wanted := {ReadFile, Grep} + mutation;
        case StartRuntime => wanted := StartRuntimeSurface();
        case OpenBrowser => wanted := LIFECYCLE + mutation + {BrowserOpen, PreviewHtml};
        case InspectBrowser => wanted := LIFECYCLE + {BrowserInspect, BrowserClose};
        case Capture => wanted := LIFECYCLE + {BrowserInspect, BrowserAct, BrowserScreenshot, BrowserClose};
        case VisualReview => wanted := LIFECYCLE + {InspectImages};
        case Publish => wanted := LIFECYCLE + {PublishOutput};
        case Complete => wanted := base;
      }
      tools := base * wanted;
    }

    /** The first objection to a call, in the order the checks are made. */
    method ValidateCall(tool: Tool, args: Args) returns (verdict: Verdict)
      ensures verdict == Validate(View(), tool, args)
    {
      hide NormUrl, NormPath, NormDirectory, Fold, Strip, ManifestDirectories, BrowserDirectories, ValidateStart;
      if !Active(View()) {
        return Accepted;
      }
      if tool == StopProcess && contract.requireBrowser && runtime.runtimeReady && !browser.browserOpened
         && runtime.runtimeBlockers == [] && Strip(TextArg(args, ProcessId)) in runtime.processIds {
        return RuntimeStillNeeded;
      }
      if tool == BrowserOpen && NeedsRuntime(View()) && !runtime.runtimeReady {
        return RuntimeNotReady;
      }
      if tool == BrowserOpen && NeedsRuntime(View()) {
        var requested, verified := NormUrl(TextArg(args, Url)), NormUrl(runtime.runtimeUrl);
        if verified == "" {
          return UrlNotVerified;
        }
        if requested != verified {
          return UrlMismatch;
        }
      }
      if tool == InstallDependencies {
        var directory := NormPath(OrElse(TextArg(args, Directory), "."));
        var candidates := ManifestDirectories(project);
        if directory in {"", "."} && "." !in candidates && |candidates| > 1 {
          return NestedManifests;
        }
      }
      if tool == StartProcess {
        verdict := ValidateStartCall(args);
        if verdict != Accepted {
          return;
        }
      }
      if tool in {BrowserInspect, BrowserAct, BrowserScreenshot} && !browser.browserOpened {
        return BrowserClosed;
      }
      if tool == BrowserInspect && browser.browserInspected && !browser.browserReloadRequired {
        return AlreadyInspected;
      }
      if tool == BrowserScreenshot && contract.screenshotCount > 0 && !browser.browserInspected {
        return PageNotInspected;
      }
      if tool == BrowserAct && browser.actionPendingCapture {
        return CapturePending;
      }
      if tool == InspectImages && |gallery.capturedPaths| < contract.screenshotCount {
        return CapturesMissing;
      }
      if tool == PublishOutput && contract.requireVisualReview && !review.visualReviewed {
        return NotReviewed;
      }
      if tool == PublishOutput && contract.requireVisualReview && review.selectedPaths == [] {
        return NothingSelected;
      }
      verdict := Accepted;
    }

    method ValidateStartCall(args: Args) returns (verdict: Verdict)
      ensures verdict == ValidateStart(View(), args)
      ensures verdict == Accepted && contract.requireBrowser ==>
                Fold(OrElse(TextArg(args, ReadinessType), "none")) in {"port", "url"}
                && Strip(TextArg(args, ReadinessValue)) != ""
      ensures verdict == Accepted && contract.requireBrowser && !browser.browserOpened ==>
                BrowserDirectories(project) == [] || NormDirectory(TextArg(args, Cwd)) in BrowserDirectories(project)
    {
      hide NormDirectory, Fold, Strip, BrowserDirectories;
      var kind := Fold(OrElse(TextArg(args, ReadinessType), "none"));
      var value := Strip(TextArg(args, ReadinessValue));
      if kind == "none" {
        return NoReadinessSignal;
      }
      if kind in {"port", "url", "log"} && value == "" {
        return NoReadinessValue;
      }
      if contract.requireBrowser && kind !in {"port", "url"} {
        return ReadinessNotAddressable;
      }
      var preferred := BrowserComponentDirectories();
      var cwd := NormDirectory(TextArg(args, Cwd));
      if contract.requireBrowser && !browser.browserOpened && preferred != [] && cwd !in preferred {
        return NotTheFrontend;
      }
      verdict := Accepted;
    }

    /** Repairs a call by falling through the tool cases; a repaired call leaves early. */
    method RewriteCall(tool: Tool, args: Args) returns (normalized: Args)
      ensures normalized == Rewrite(View(), tool, args)
    {
      hide RewriteReview, RewritePublish, RewriteStart, RewriteInstall, NormUrl, Strip;
      normalized := args;
      if tool == InspectImages {
        normalized := BindReview(normalized);
      }
      if tool == PublishOutput {
        normalized := BindPublication(normalized);
      }
      if tool == BrowserOpen && runtime.runtimeReady && runtime.runtimeUrl != "" {
        var requested, verified := NormUrl(TextArg(normalized, Url)), NormUrl(runtime.runtimeUrl);
        if requested != verified {
          return normalized[Url := Words(runtime.runtimeUrl)];
        }
      }
      if tool in {BrowserInspect, BrowserAct, BrowserScreenshot, BrowserClose}
         && Strip(TextArg(normalized, SessionId)) == "" && browser.browserSessionId != "" {
        normalized := normalized[SessionId := Words(browser.browserSessionId)];
      }
      if tool == BrowserInspect && browser.browserReloadRequired && runtime.runtimeUrl != ""
         && NormUrl(TextArg(normalized, Url)) != NormUrl(runtime.runtimeUrl) {
        return normalized[Url := Words(runtime.runtimeUrl)];
      }
      if tool == StartProcess {
        normalized := BindStart(normalized);
      }
      if tool == InstallDependencies {
        normalized := RewriteInstall(View(), normalized);
      }
    }

    /** Binds a review to every capture; what the model wrote about purpose and criteria stays. */
    method BindReview(args: Args) returns (normalized: Args)
      ensures normalized == RewriteReview(View(), args)
      ensures gallery.capturedPaths == [] ==> normalized == args
      ensures gallery.capturedPaths != [] ==> Paths in normalized && normalized[Paths] == Names(gallery.capturedPaths)
      ensures forall k :: k in {Purpose, Criteria} && gallery.capturedPaths != [] ==>
                Strip(TextArg(normalized, k)) != ""
                && (Strip(TextArg(args, k)) != "" ==> TextArg(normalized, k) == TextArg(args, k))
      ensures SameElsewhere(normalized, args, {Paths, Purpose, Criteria})
    {
      hide Strip, ReviewPurpose, ReviewCriteria;
      VisibleTexts(gallery.capturedPaths);
      normalized := args;
      if gallery.capturedPaths == [] {
        return;
      }
      if Paths !in normalized || normalized[Paths] != Names(gallery.capturedPaths) {
        normalized := normalized[Paths := Names(gallery.capturedPaths)];
      }
      assert normalized == args[Paths := Names(gallery.capturedPaths)];
      if Strip(TextArg(normalized, Purpose)) == "" {
        normalized := normalized[Purpose := Words(ReviewPurpose(gallery.capturedPaths))];
      }
      if Strip(TextArg(normalized, Criteria)) == "" {
        normalized := normalized[Criteria := Words(ReviewCriteria(gallery.capturedPaths))];
      }
    }

    /** Binds the published images to the selection and keeps the limitation in the message. */
    method BindPublication(args: Args) returns (normalized: Args)
      ensures normalized == RewritePublish(View(), args)
      ensures review.selectedPaths == [] ==> normalized == args
      ensures review.selectedPaths != [] && StrippedSelection(View()) ==>
                SuppliedPaths(normalized) == ExpectedPaths(review.selectedPaths)
      ensures review.selectedPaths != [] && runtime.degradedRuntimeWarnings != [] ==>
                Contains(Strip(TextArg(normalized, Message)), LimitationNote(runtime.degradedRuntimeWarnings))
      ensures SameElsewhere(normalized, args, {AssetsKey, Message})
    {
      hide Strip, LimitationNote, Contains, ExpectedAssets, ExpectedPaths, SuppliedPaths;
      normalized := args;
      if review.selectedPaths == [] {
        return;
      }
      var supplied, expected := SuppliedPaths(normalized), ExpectedPaths(review.selectedPaths);
      if supplied != expected {
        normalized := normalized[AssetsKey := Assets(ExpectedAssets(review.selectedPaths))];
      }
      assert TextArg(normalized, Message) == TextArg(args, Message);
      var limitation := LimitationNote(runtime.degradedRuntimeWarnings);
      var message := Strip(TextArg(normalized, Message));
      if limitation != "" && !Contains(message, limitation) {
        normalized := normalized[Message := Words(Strip(message + "\n\n" + limitation))];
      }
      PublicationMeaning(View(), args);
    }

    /** The companion, frontend and root repairs of start_process, in that order. */
    method BindStart(args: Args) returns (normalized: Args)
      ensures normalized == RewriteStart(View(), args)
    {
      hide CompanionSpec, BrowserStartSpec, BrowserDirectories, WithCompanion, RepairPort, SetText, NormPath;
      normalized := args;
      var companion := CompanionSpec(View());
      if browser.browserOpened && companion.Some? {
        return WithCompanion(normalized, companion.value);
      }
      var frontend := BrowserStartSpec(project);
      if !browser.browserOpened && frontend.Some? {
        normalized := SetText(normalized, Command, frontend.value.command);
        normalized := SetText(normalized, Cwd, frontend.value.cwd);
        normalized := RepairPort(normalized);
        if normalized != args {
          return;
        }
      }
      var directory := NormPath(OrElse(TextArg(normalized, Cwd), "."));
      var preferred := BrowserComponentDirectories();
      if !browser.browserOpened && directory in {"", "."} && |preferred| == 1 {
        normalized := normalized[Cwd := Words(preferred[0])];
      }
    }

    /** Scans the recorded fingerprints one by one. */
    method IsPerceptualDuplicate(candidate: string) returns (duplicate: bool)
      ensures duplicate == PerceptuallyDuplicate(candidate, gallery.capturedPerceptualHashes)
    {
      if HexValue(candidate).None? {
        return false;
      }
      var rest := gallery.capturedPerceptualHashes;
      while rest != {}
        invariant rest <= gallery.capturedPerceptualHashes
        invariant forall known | known in gallery.capturedPerceptualHashes - rest :: !Near(candidate, known)
        decreases |rest|
      {
        var known :| known in rest;
        if Near(candidate, known) {
          return true;
        }
        rest := rest - {known};
      }
      duplicate := false;
    }

    method RecordCapture(path: string, digest: string, perceptual: string)
      modifies this`gallery
      ensures gallery == AddCapture(old(gallery), path, digest, perceptual)
    {
      if path == "" {
        return;
      }
      var fingerprint := Fold(digest);
      if fingerprint != "" && fingerprint in gallery.capturedHashes {
        return;
      }
      var visual := Fold(perceptual);
      var duplicate := IsPerceptualDuplicate(visual);
      if duplicate || path in gallery.capturedPaths {
        return;
      }
      gallery := gallery.(capturedPaths := gallery.capturedPaths + [path]);
      if fingerprint != "" {
        gallery := gallery.(capturedHashes := gallery.capturedHashes + {fingerprint});
      }
      if visual != "" {
        gallery := gallery.(capturedPerceptualHashes := gallery.capturedPerceptualHashes + {visual});
      }
    }

    /** Restores an image without restoring its dead browser lease. */
    method RestoreDurableScreenshot(r: Receipt)
      modifies this`gallery
      ensures gallery == CaptureReceipt(old(gallery), r)
    {
      RecordCapture(CapturePath(r), r.sha256, r.perceptualHash);
    }

    method RecordListing(lines: seq<string>)
      modifies this`project
      ensures project == old(project).(listedFiles := ListedPaths(lines))
    {
      var files: seq<string> := [];
      for i := 0 to |lines|
        invariant files == ListedPaths(lines[..i])
      {
        assert lines[..i + 1][..i] == lines[..i];
        var path := NormPath(lines[i]);
        if path != "" && path[|path| - 1] != '/' && path !in files {
          files := files + [path];
        }
      }
      assert lines[..|lines|] == lines;
      project := project.(listedFiles := files);
    }

    method RecordRead(args: Args, r: Receipt)
      modifies this`project
      ensures project == ReadProjectFile(old(project), args, r)
    {
      var path := NormPath(TextArg(args, PathKey));
      if path != "" {
        project := project.(readFiles := project.readFiles + {path});
      }
      if IsPackageJson(path) && r.manifest.Some? {
        project := project.(packageManifests := PutManifest(project.packageManifests, path, r.manifest.value));
      }
    }

    method CollectCritical(r: Receipt) returns (critical: seq<string>)
      ensures critical == CriticalErrors(r)
    {
      hide IsCritical, Strip, Lower, Dedup;
      var all := r.networkErrors + r.consoleErrors;
      var texts: seq<string> := [];
      for i := 0 to |all|
        invariant texts == CriticalAmong(all[..i])
      {
        assert all[..i + 1][..i] == all[..i];
        var text := Strip(all[i]);
        if text != "" && IsCritical(Lower(text)) {
          texts := texts + [text];
        }
      }
      assert all[..|all|] == all;
      critical := Dedup(texts);
    }

    method RecordProcess(r: Receipt)
      modifies this`runtime
      ensures runtime == NoteProcess(old(runtime), r)
    {
      runtime := runtime.(processId := OrElse(r.processId, runtime.processId));
      if runtime.processId != "" && runtime.processId !in runtime.processIds {
        runtime := runtime.(processIds := runtime.processIds + [runtime.processId]);
      }
    }

    method RecordStartedUrl(args: Args, r: Receipt)
      modifies this`runtime
      ensures runtime == old(runtime).(runtimeUrl := StartedUrl(old(runtime).runtimeUrl, browser.browserOpened, args, r))
    {
      if runtime.runtimeUrl == "" || !browser.browserOpened {
        runtime := runtime.(runtimeUrl := r.readinessUrl);
      }
      var kind := OrElse(r.readinessType, TextArg(args, ReadinessType));
      var value := OrElse(r.readinessValue, TextArg(args, ReadinessValue));
      if runtime.runtimeUrl == "" && kind == "url" {
        runtime := runtime.(runtimeUrl := value);
      } else if runtime.runtimeUrl == "" && kind == "port" && AllDigits(value) {
        runtime := runtime.(runtimeUrl := "http://127.0.0.1:" + value);
      }
    }

    method RecordStart(args: Args, r: Receipt)
      modifies this`runtime, this`browser
      ensures View() == ObserveStart(old(View()), args, r)
    {
      var receiptReady := r.ready && r.status == Running;
      RecordProcess(r);
      RecordStartedUrl(args, r);
      runtime := runtime.(runtimeReady :=
        receiptReady && (if contract.requireBrowser then runtime.runtimeUrl != "" else true));
      if receiptReady && browser.browserOpened && runtime.runtimeBlockers != [] {
        runtime := runtime.(runtimeBlockers := []);
        browser := browser.(browserReloadRequired := true, browserInspected := false);
      }
    }

    method RecordBrowserUrl(r: Receipt)
      modifies this`browser
      ensures browser == SeeUrl(old(browser), r)
    {
      var value := Strip(r.url);
      if value == "" {
        return;
      }
      browser := browser.(browserUrl := value,
                          visitedBrowserUrls := browser.visitedBrowserUrls + {OrElse(r.urlPath, "/")});
    }

    method RecordTargets(r: Receipt)
      modifies this`browser
      ensures browser == SeeTargets(old(browser), r)
    {
      if r.targets != [] {
        browser := browser.(interactionTargets := r.targets);
      }
    }

    method RecordOpen(r: Receipt)
      modifies this`runtime, this`browser
      ensures View() == ObserveOpen(old(View()), r)
    {
      browser := browser.(browserOpened := r.browserOpened.Some? && r.browserOpened.value);
      browser := browser.(browserSessionId := OrElse(r.sessionId, browser.browserSessionId));
      runtime := runtime.(runtimeUrl := OrElse(r.url, runtime.runtimeUrl));
      RecordBrowserUrl(r);
      RecordTargets(r);
    }

    /** The verdict part of a browser observation, after session, URL and targets are recorded. */
    method RecordPageState(r: Receipt, acted: bool)
      modifies this`runtime, this`browser
      ensures runtime == PageRuntime(old(runtime), Classify(contract, r), r)
      ensures browser == PageBrowser(old(browser), Classify(contract, r), r, acted)
    {
      hide CriticalErrors, Dedup, NonBlank;
      var errors := CollectCritical(r);
      var usable := contract.requireBrowser && contract.screenshotCount > 0
                    && (|r.visibleText| >= 80 || |r.targets| >= 2);
      var defects := Dedup(NonBlank(r.pageErrors));
      if errors != [] && usable {
        runtime := runtime.(degradedRuntimeWarnings := Dedup(runtime.degradedRuntimeWarnings + errors));
        runtime := runtime.(runtimeBlockers := []);
        browser := browser.(browserReloadRequired := false, browserInspected := true);
        if acted {
          browser := browser.(actionPendingCapture := true);
        }
      } else if errors != [] {
        runtime := runtime.(runtimeBlockers := errors, runtimeReady := false);
        browser := browser.(browserInspected := false);
      } else if defects != [] {
        runtime := runtime.(runtimeBlockers := []);
        browser := browser.(pageDefects := Dedup(browser.pageDefects + defects));
        browser := browser.(browserReloadRequired := true, browserInspected := false);
      } else {
        runtime := runtime.(runtimeBlockers := []);
        browser := browser.(browserReloadRequired := false, browserInspected := true);
        if acted {
          browser := browser.(actionPendingCapture := true);
        }
      }
    }

    method RecordPage(r: Receipt, acted: bool)
      modifies this`runtime, this`browser
      ensures View() == ObservePage(old(View()), r, acted)
    {
      hide Classify, PageRuntime, PageBrowser, SeeUrl, SeeTargets;
      browser := browser.(browserOpened := browser.browserOpened || r.browserOpened.None? || r.browserOpened.value);
      browser := browser.(browserSessionId := OrElse(r.sessionId, browser.browserSessionId));
      RecordBrowserUrl(r);
      RecordTargets(r);
      RecordPageState(r, acted);
    }

    method RecordFailure(tool: Tool, args: Args, text: string)
      modifies this`failure, this`runtime
      ensures View() == ObserveFailure(old(View()), tool, args, text)
    {
      hide ServerDirectories, MentionsRefusal, NormPath, Lower;
      failure := Failure(if |text| <= 1000 then text else text[..1000], Some(tool));
      if tool == StartProcess && browser.browserOpened && runtime.runtimeBlockers != [] {
        var directory := NormPath(OrElse(TextArg(args, Cwd), "."));
        if directory in ServerDirectories(project) {
          runtime := runtime.(companionStartAttempted := true, companionStartFailure := failure.lastFailure);
        }
      }
      if tool == BrowserOpen && MentionsRefusal(Lower(failure.lastFailure)) {
        runtime := runtime.(runtimeReady := false);
      }
    }

    method RecordPreview(r: Receipt)
      modifies this`runtime, this`browser, this`gallery
      ensures View() == ObservePreview(old(View()), r)
    {
      hide PerceptuallyDuplicate, Fold;
      runtime := runtime.(runtimeReady := true);
      browser := browser.(browserOpened := r.browserOpened.Some? && r.browserOpened.value);
      browser := browser.(browserInspected := r.verificationPassed);
      runtime := runtime.(runtimeUrl := OrElse(r.url, runtime.runtimeUrl));
      if r.screenshotPath != "" {
        RecordCapture(r.screenshotPath, r.sha256, "");
      }
    }

    method RecordScreenshot(r: Receipt)
      modifies this`browser, this`gallery
      ensures View() == ObserveScreenshot(old(View()), r)
    {
      browser := browser.(browserOpened := browser.browserOpened || r.browserOpened.None? || r.browserOpened.value);
      browser := browser.(browserSessionId := OrElse(r.sessionId, browser.browserSessionId));
      RecordCapture(CapturePath(r), r.sha256, r.perceptualHash);
      browser := browser.(actionPendingCapture := false);
    }

    method RecordReview(r: Receipt)
      modifies this`review
      ensures review == ReviewImages(old(review), gallery, r)
    {
      if r.status == EvaluatedImages {
        var evaluated := Evaluated(r);
        review := review.(visualReviewed := forall path | path in gallery.capturedPaths :: path in evaluated);
        review := review.(selectedPaths := Dedup(SelectedAmong(r.selected, evaluated)));
      }
    }

    method RecordInstall(args: Args, r: Receipt)
      modifies this`project
      ensures project == NoteInstall(old(project), args, r)
    {
      if r.status in {Installed, AlreadySatisfied} {
        project := project.(dependencyDirectoriesChecked :=
          project.dependencyDirectoriesChecked + {NormDirectory(TextArg(args, Directory))});
      }
    }

    method RecordCommand()
      modifies this`runtime
      ensures View() == ObserveCommand(old(View()))
    {
      if !contract.requireBrowser {
        runtime := runtime.(runtimeReady := true);
      }
    }

    /** Updates the evidence from one executed tool call. */
    method ObserveReceipt(tool: Tool, args: Args, r: Receipt, ok: bool)
      modifies this
      ensures View() == Observe(old(View()), tool, args, r, ok)
    {
      hide ObserveSuccess, ObserveFailure;
      if ok {
        failure := Failure("", None);
        RecordSuccess(tool, args, r);
      } else {
        RecordFailure(tool, args, r.text);
      }
    }

    method RecordSuccess(tool: Tool, args: Args, r: Receipt)
      modifies this
      ensures View() == ObserveSuccess(old(View()), tool, args, r)
    {
      hide ObserveStart, ObservePreview, ObserveOpen, ObservePage, ObserveScreenshot, ReviewImages, ReadProjectFile,
        NoteInstall, ListedPaths, ObserveCommand;
      match tool {
        case ListFiles => RecordListing(r.lines);
        case ReadFile => RecordRead(args, r);
        case InstallDependencies => RecordInstall(args, r);
        case StartProcess => RecordStart(args, r);
        case PreviewHtml => RecordPreview(r);
        case BrowserOpen => RecordOpen(r);
        case BrowserInspect => RecordPage(r, false);
        case BrowserAct => RecordPage(r, true);
        case BrowserScreenshot => RecordScreenshot(r);
        case InspectImages => RecordReview(r);
        case RunCommand => RecordCommand();
        case RunBash => RecordCommand();
        case PublishOutput =>
          if r.status == OutputPublished {
            review := review.(outputReady := true);
          }
        case _ =>
      }
    }
  }
}
