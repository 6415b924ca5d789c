# Deterministic control plane of a coding agent, verified

The repository wraps a small language model in deterministic control code. This project models that code and proves
what it keeps over whole runs, for every receipt, payload, history, image or value it may meet.

* **Action workflow** (`Workflow`, `Coordinator`, `GatedRuns`, `Completion`, `Progress`, `DeadEnds`, `Resumption`,
  `RewriteProofs`, `Readiness`, `ReviewPaths`, `Rankings`): the evidence-driven coordinator of run, browser and output
  actions. `Coordinator` is the object with its fields; every method is tied to the functions of `Workflow`, and what
  those mean is stated apart from them: `Receipts` and `PageReports` for what a receipt proves, `Surfaces` for phases
  and the tools they offer, `Calls` for refusals and repairs. `GatedRuns` is the loop around it as agent/runtime.py
  wires it: a turn fixes the tool surface, and each call of the turn is rewritten, validated, checked against that
  surface, executed with an arbitrary receipt, and observed.
* **Captures and hand-off** (`Fingerprints`, `CaptureFilter`, `OutcomeContract`, `Handoff`): perceptual filtering, the
  second, list-based account of the same receipts, and what that account still finds missing after publication.
* **Quality convergence** (`Convergence`), **schema validation** (`SchemaValidation`), **conversation compaction**
  (`Compaction`), **route decisions** (`TaskDemand`, `Routes`, `RouteRoundTrip`, `RouteTransformations`, `OutcomeRepair`,
  `RouteMeanings`, `Strategy`), and the loop-heavy projections **timeline** (`Timeline`), **agent panel**
  (`AgentAccounting`), **pixel metrics** (`PixelMetrics`). `Text` holds the string operations they share.

Where the code does not do what one would expect of it, the exact condition is proved:

* Completion is out of reach at two kinds of moments. A review that selected nothing leaves a publication phase without
  capture tools (agent/action_workflow.py:629-630, 1022-1023); only another inspect_images of the same turn, whose tool
  surface was fixed before, can still revive it. A browser task whose inspected frontends cannot be named by any
  accepted `cwd`, for instance because the only manifest was read by an absolute path, has no start left, unless the
  running turn still permits listing, reading or previewing. No receipts complete a run from there. At every other
  moment at most screenshotCount + 13 calls complete it by some receipts, whose reviews evaluate each captured path once
  and select among them whenever one of them stays a captured path without the blanks around it.
* With the receipts of the repository's own tools a review cannot come into force. browser_screenshot reports the
  absolute `screenshot_path` (agent/tools/browser_session.py:316-345) and that is what the coordinator records
  (agent/action_workflow.py:447-455); inspect_images reports its evaluations under paths relative to the workspace
  (agent/tools/inspect_images.py:78-131), and nothing translates between the two. Under such reviews VISUAL_REVIEW is
  left exactly when every captured path is how a captured image is displayed, and no request with a review completes
  if captures are recorded under paths that are never displayed. Captures recorded under the displayed path would do.
* A rewritten `start_process` is not settled when the only frontend is the workspace root, the model wrote its `.` with
  blanks around it, and the first pass repaired something else (agent/action_workflow.py:858-877).
* What a resumed action publishes was always in the last evaluation. But its review can stay in force over a captured
  image that nobody evaluated. Some run gets there exactly if the restored state is there already, or is still to list,
  read, start (with a start that is not dead), open or capture, or waits for an inspection that may send a run project
  back to its start or leaves captures owed.
* The coordinator publishes only what was evaluated (agent/action_workflow.py:463-469, 667-685) while the outcome
  contract asks for everything selected (agent/action_outcome.py:279-291). The two meet exactly when every selected path
  is the same as one that was also evaluated, as in every receipt the registered evaluator returns
  (agent/runtime.py:6653-6690).
* The coordinator's and the contract's accounts of the captures agree throughout a run exactly if no receipt splits
  them: names a recorded image under one more rendering, with neither a recorded digest nor a near picture. The
  screenshot tool emits no such receipt, as it writes every file once and always reports its digest; under its
  receipts they always agree.
* `suspend_and_revive` says that repeated calls are idempotent until the context fills (agent/context.py:154-161). If
  only the revived message is left and it exceeds the budget, the next call makes the conversation longer; no call after
  that does.
* A clipped text settles in the third pass exactly up to 10^65 removed characters; a title cut at 80 characters and a
  blank legacy coordination change again when a printed decision is parsed; a raw model size of 999999 counts as larger
  than one of 1000000.

Modelling choices. Digests, hashes and JSON text are opaque: a receipt is the record of the fields the code reads from
it, and regex results arrive as parsed values except where they are short enough to spell out (ports, loopback origins).
Scores, thresholds and luminances are reals. `casefold` is lower-casing of ASCII. Python integers are unbounded, as in
Dafny. What the filesystem makes of a path, what a summarizer writes and what a model answers are parameters.
`hide` statements only narrow what the verifier looks at.

## Model

| member | source | states |
|---|---|---|
| Coordinator.ActionExecutionCoordinator.constructor | agent/action_workflow.py:96-112 | a new coordinator holds no evidence, and a negative screenshot count asks for none |
| Coordinator.ActionExecutionCoordinator.StartupFilesInOrder | agent/action_workflow.py:122-136 | the filtering loop yields at most six startup files, sorted by priority, depth and name, and every one left out comes after them |
| Coordinator.ActionExecutionCoordinator.BrowserComponentDirectories | agent/action_workflow.py:165-193 | the loop yields exactly the UI-serving directories, sorted by falling count of frontend packages and by name |
| Coordinator.ActionExecutionCoordinator.StartRuntimeSurface | agent/action_workflow.py:582-616 | each tool of the start phase is there exactly under its condition: reading after an unexplained failure, previews with a static page, installs until settled, writing on request |
| Coordinator.ActionExecutionCoordinator.PermittedTools | agent/action_workflow.py:563-633 | the surface is part of the base, offers review and publication only on complete evidence and then nothing that undoes it, and writing only when requested |
| Coordinator.ActionExecutionCoordinator.ValidateCall | agent/action_workflow.py:947-1024 | the sequence of checks finds the objection, or acceptance, that the run theorems gate calls by |
| Readiness.AcceptedStartHasAddress | agent/tools/process_manager.py:153-171 | the receipt start_process returns for an accepted call of a browser task carries a loopback address, whether declared or found in the process log |
| Readiness.ReadyStartCanBeOpened | agent/tools/process_manager.py:220-248 | after such a receipt the runtime is ready exactly if the process is, for every task; a browser that was closed can then be opened by every repaired browser_open, at the address of the receipt |
| Completion.AcceptedStartIsReadyIff | agent/action_workflow.py:364-374 | the fallback to the arguments, for receipts without readiness fields, which start_process does not return: it yields an address exactly for a literal url type, or a literal port type with digits |
| Coordinator.ActionExecutionCoordinator.RewriteCall | agent/action_workflow.py:635-898 | falling through the tool cases with early returns repairs a call to the arguments the run theorems execute |
| Coordinator.ActionExecutionCoordinator.BindReview | agent/action_workflow.py:649-666 | a review call names every capture, has a visible purpose and criteria, keeps those the model wrote, and is otherwise untouched |
| Coordinator.ActionExecutionCoordinator.BindPublication | agent/action_workflow.py:667-693 | a publication names exactly the selection, carries the limitation when the runtime was degraded, and is otherwise untouched |
| Coordinator.ActionExecutionCoordinator.BindStart | agent/action_workflow.py:850-881 | companion, frontend and root repairs apply in that order, each only if the earlier ones left the call alone |
| Coordinator.ActionExecutionCoordinator.IsPerceptualDuplicate | agent/action_workflow.py:496-513 | the scan finds a near fingerprint if and only if one is recorded |
| Coordinator.ActionExecutionCoordinator.RecordCapture | agent/action_workflow.py:515-533 | a capture is added, with its fingerprints, unless path, digest or picture is already known |
| Coordinator.ActionExecutionCoordinator.RestoreDurableScreenshot | agent/action_workflow.py:535-543 | restoring fills the gallery like a screenshot would and touches nothing else |
| Coordinator.ActionExecutionCoordinator.RecordListing | agent/action_workflow.py:332-338 | a listing replaces the files by the non-directory lines, normalised, each once |
| Coordinator.ActionExecutionCoordinator.CollectCritical | agent/action_workflow.py:545-561 | exactly the runtime-breaking network and console errors are kept, each once, in order |
| Coordinator.ActionExecutionCoordinator.RecordStart | agent/action_workflow.py:355-374 | readiness, URL, process list and reload request after a start, from the old state and the receipt |
| Coordinator.ActionExecutionCoordinator.RecordPageState | agent/action_workflow.py:396-446 | the four outcomes of looking at a page: degraded, broken, defective or healthy, whose meaning LookingLeaves and LookingLists give |
| Coordinator.ActionExecutionCoordinator.RecordFailure | agent/action_workflow.py:309-328 | a failure is remembered, marks a failed companion start, and a refused browser loses readiness |
| Coordinator.ActionExecutionCoordinator.RecordReview | agent/action_workflow.py:456-469 | a review holds if it evaluated every capture, and selects only what it evaluated |
| Coordinator.ActionExecutionCoordinator.ObserveReceipt | agent/action_workflow.py:307-471 | one receipt of any tool takes the whole evidence to the value the run theorems speak about |
| GatedRuns.StepKeepsSurface | agent/action_workflow.py:563-633 | in every gated step a surface offering review or publication implies complete evidence and offers nothing that undoes it |
| GatedRuns.PhaseMeansEvidence | agent/action_workflow.py:284-305 | short of completion, runtime, browser and captures are complete exactly in the two late phases |
| GatedRuns.LateCallKeepsEvidence | agent/action_workflow.py:307-471 | calls allowed in late phases change only the review and the failure record |
| GatedRuns.PublicationIsEarned | agent/action_workflow.py:289-305 | on every gated run up to completion, started or resumed, output exists only with runtime, browser, captures and a non-empty required review |
| GatedRuns.ReviewBinds | agent/action_workflow.py:456-469 | a review binds selection and captures to the images it evaluated, and counts only if it covers all captures |
| GatedRuns.ReviewCoversEverything | agent/action_workflow.py:456-471 | on every fresh gated run, while the review holds, all captured and selected images belong to the last evaluation and no evidence is lost |
| GatedRuns.SelectionStaysEvaluated | agent/action_workflow.py:456-469 | in every sequence of events, gated or not, from any state with an evaluated selection, every selected image belongs to the last evaluation |
| GatedRuns.ResumedReviewCoversEverything | agent/runtime.py:19797-19958 | for every request, a resumed run whose restored review came with all its evidence keeps it over captures and selection |
| GatedRuns.ResumedRunCanCompleteUnreviewed | agent/action_workflow.py:377-384 | a concrete resumed run completes, its review in force, with a capture nobody evaluated |
| Resumption.ShotBreaks | agent/action_workflow.py:515-533 | where a preview or screenshot can be made, a reviewed state can outrun its evaluation in one turn |
| Resumption.QuietStartBreaks | agent/action_workflow.py:591-604 | from every unready phase with a feasible start and no companion to explain a failure, a run leads to such a capture |
| Resumption.BrokenPageBreaks | agent/action_workflow.py:428-431 | a page inspection of a run project can report the server broken and lead back to such a capture |
| Resumption.OnlyInspectionHolds | agent/action_workflow.py:623-630 | with the page open, no project to run and no captures owed, no gated run outruns the review |
| Resumption.StuckStartHolds | agent/action_workflow.py:582-616 | neither does any run out of a start dead end |
| Resumption.RestoredReviewBreaksIffExposed | agent/runtime.py:19704-19785 | for every restored state of a request with a review, some gated run leaves the review in force over an unevaluated capture if and only if it starts so, or its phase still lists, reads, starts, opens or captures, or inspects with a project to run or captures owed |
| Completion.InfeasibleStartRejected | agent/action_workflow.py:987-1002 | if no directory text can name a frontend, every start_process is rejected, whatever the model asks for and however it is rewritten |
| Completion.FeasibleStartAccepted | agent/action_workflow.py:850-881 | otherwise some start_process survives rewriting and validation |
| Completion.SpecIsOnlyFrontend | agent/action_workflow.py:205-228 | a derived start command belongs to the one ranked frontend directory |
| Completion.RewrittenCwd | agent/action_workflow.py:858-873 | after rewriting, the working directory names that frontend |
| Progress.LiveStatesComplete | agent/action_workflow.py:284-305 | outside the dead ends every reachable state completes within screenshotCount + 12 successful calls, each in its own turn, by some receipts with fair reviews |
| Progress.InspectionIsMonotone | agent/action_workflow.py:144-153 | reading more files never undoes the startup inspection |
| Progress.FromStartRuntime | agent/action_workflow.py:582-616 | from a live start phase completion is within the captures owed and five calls |
| Progress.FromInspectStartup | agent/action_workflow.py:580-581 | from an inspection phase completion is within the captures owed and twelve calls, six of them reads at most |
| Progress.StuckPublishStays | agent/action_workflow.py:1020-1023 | an empty selection in publication, with a surface of lifecycle and publication tools only, survives every gated event |
| Progress.StuckStartStays | agent/action_workflow.py:987-1002 | a dead start with a surface of idle tools only survives every gated event |
| Progress.StuckNeverCompletes | agent/action_workflow.py:563-633 | no gated run from either completes |
| Progress.ReviewRescues | agent/runtime.py:19863-19963 | a second inspect_images of the same turn, evaluating each capture once and selecting one, revives a dead publication |
| Progress.StartIsRescued | agent/runtime.py:19863-19963 | listing, reading or previewing left in the turn's surface revives a dead start |
| Progress.StepKeepsShape | agent/runtime.py:19805-19810 | at every moment of a browser task the turn's surface holds a rescue, or only idle tools, or an open browser that it cannot close |
| Progress.DoomedIsStuck | agent/runtime.py:19805-19810 | on a run, a dead end without a rescue in the surface leaves only tools that keep it |
| Progress.EventsFor | agent/runtime.py:19797-19958 | a bound on calls yields an actual gated run with at most that many calls and fair reviews that ends complete |
| Progress.RunsReachReachable | agent/action_workflow.py:332-338 | every run before completion stays among the states the reachability theorem covers |
| Progress.CompletionIsReachableUnlessDoomed | agent/action_workflow.py:284-305 | at every moment a gated run reaches before completing, the surface of the running turn included, completion is reachable if and only if the run is not in a dead end whose surface lacks every tool that leads out: then within screenshotCount + 13 calls by some receipts with fair reviews, otherwise by no receipts at all |
| ReviewPaths.ReviewHoldsIffShown | agent/tools/inspect_images.py:99-131 | a review inspect_images returns for the bound captures comes into force exactly if every captured path is among their displayed names |
| ReviewPaths.ShownWithoutRepeats | agent/runtime.py:6653-6690 | distinct captures that are all displayed have distinct displayed names, so the evaluator's one verdict per name is possible |
| ReviewPaths.ReviewIsLeftIffShown | agent/action_workflow.py:456-462 | in a turn that starts in VISUAL_REVIEW after any run, some gated continuation with such reviews leaves the phase if and only if every captured path is how a captured image is displayed |
| ReviewPaths.HiddenCapturesNeverComplete | agent/action_workflow.py:447-462 | if every capture is offered under a path that is never displayed, no gated run of a request with a review has it in force or completes |
| ReviewPaths.AbsoluteCapturesNeverComplete | agent/tools/browser_session.py:316-345 | in particular with absolute screenshot paths and names relative to the workspace |
| ReviewPaths.DisplayedCapturesAreShown | agent/tools/_security.py:324-332 | captures recorded under their displayed names satisfy the condition |
| DeadEnds.DeadStartIsReachable | agent/action_workflow.py:339-349 | a concrete run of a request to run and preview a project reaches a dead start that no further gated call leaves |
| DeadEnds.DeadPublishIsReachable | agent/action_workflow.py:456-469 | a concrete run of a screenshot request reaches a dead publication that no further gated call leaves |
| RewriteProofs.RewriteIsIdempotentUnlessPadded | agent/action_workflow.py:635-898 | for every tool but browser_act a second rewrite changes nothing, exactly unless the root directory was written with blanks and something else was repaired |
| RewriteProofs.FrontendTwice | agent/action_workflow.py:858-881 | the same iff for the frontend repairs of start_process |
| RewriteProofs.PublishTwice | agent/action_workflow.py:667-693 | the limitation note and the bound assets are recognised on a second pass |
| RewriteProofs.RewrittenOpenVerdict | agent/action_workflow.py:694-702 | a rewritten browser_open passes validation exactly when no runtime is needed or a verified, visible URL exists |
| RewriteProofs.RewrittenStartDirectory | agent/action_workflow.py:996-1002 | a rewritten start_process passes the directory check exactly when the frontend directory is in normal form |
| Rankings.StartupCandidatesAreTheFirst | agent/action_workflow.py:122-136 | the candidates are sorted listed startup files, and any startup file beyond the six comes after all of them |
| Rankings.FrontendsAreRanked | agent/action_workflow.py:165-193 | behind the frontend directories stand their package counts in falling order, exactly the pairs the manifests give |
| Text.SortBySorts | agent/action_workflow.py:135-136 | sorting by any total preorder sorts |
| Text.TrimmingMeans | agent/action_workflow.py:332-338 | stripping takes removable characters off both ends, and all of them |
| Text.DedupKeepsFirsts | agent/action_workflow.py:464-469 | removing repetitions keeps every element once, where it first occurred |
| Text.LexMeans | agent/action_workflow.py:135-136 | texts are ordered by their first difference, prefixes first |
| Text.PathsAreTakenApart | agent/action_workflow.py:122-128 | the name of a relative path is its last component and its directory the ones before, or the dot |
| Text.AbsolutePathsAreTakenApart | agent/action_workflow.py:195-203 | below the root the directory keeps the slash |
| Fingerprints.NearSymmetric | agent/action_workflow.py:496-513 | nearness does not depend on which fingerprint came first |
| Fingerprints.NearReflexive | agent/action_workflow.py:496-513 | every parsable fingerprint is near itself |
| Fingerprints.DistanceCountsDifferences | agent/action_workflow.py:496-513 | the distance of two fingerprints is the number of bits in which they differ |
| Fingerprints.ToleranceMeans | agent/action_workflow.py:510-512 | the tolerance is four in a hundred bits of the digits, rounded down, and at least eight |
| Fingerprints.HexIsReadInPlaces | agent/action_workflow.py:500-508 | a text of hex digits is read place by place, sixteen to the place |
| Fingerprints.HexSpellings | agent/action_workflow.py:500-508 | signs, a prefix, capitals and single underscores are read as int(text, 16) reads them |
| CaptureFilter.TakePacks | agent/action_workflow.py:515-533 | one capture keeps paths distinct and comparable fingerprints further apart than the threshold |
| CaptureFilter.TakeCovers | agent/action_workflow.py:515-533 | an offered capture is recorded or stood for, and stays so |
| CaptureFilter.FilterPacksAndCovers | agent/action_workflow.py:515-533 | for every sequence of offers the gallery is a packing and covers every offer with a path |
| CaptureFilter.ReplayIsIdempotent | agent/action_workflow.py:515-533 | replaying any prefix of the offers changes nothing |
| CaptureFilter.ObserveOffers | agent/action_workflow.py:377-384 | of all tools only previews and screenshots can add to the gallery, by one offer each |
| CaptureFilter.GalleryIsFilteredHistory | agent/action_workflow.py:447-455 | after any history the gallery is the filtered sequence of its offers, so packing and cover hold for it |
| CaptureFilter.RecordedWereOffered | agent/action_workflow.py:515-533 | everything recorded was offered |
| CaptureFilter.NewCapturesAreRecorded | agent/action_workflow.py:515-533 | a capture unlike every one offered before, in path, digest and picture, is recorded |
| CaptureFilter.LikenessesAreRefused | agent/action_workflow.py:515-533 | once a capture is recorded, one with its path, its digest or a near picture is never recorded, whatever is offered in between |
| OutcomeContract.ActionOutcomeContract.IsNearDuplicate | agent/action_outcome.py:128-145 | the list scan finds a near fingerprint if and only if the list holds one |
| OutcomeContract.ActionOutcomeContract.ObserveScreenshot | agent/action_outcome.py:184-199 | at most one new rendering of a receipt is appended, together with its fingerprints |
| OutcomeContract.ActionOutcomeContract.ObserveReview | agent/action_outcome.py:211-220 | evaluated images accumulate without repetition, the selection is replaced |
| OutcomeContract.ActionOutcomeContract.ObserveOutput | agent/action_outcome.py:221-235 | a published output replaces image list and copy sections |
| OutcomeContract.ActionOutcomeContract.Missing | agent/action_outcome.py:260-296 | exactly the unmet demands are reported, in the fixed order |
| OutcomeContract.ComplaintsAreLacks | agent/action_outcome.py:260-296 | a complaint is reported if and only if what it says is the case |
| OutcomeContract.DuplicatesAgree | agent/action_outcome.py:128-145 | set-based and list-based duplicate tests give the same answer on agreeing accounts |
| OutcomeContract.StepAgreesUnlessSplit | agent/action_outcome.py:184-199 | one receipt keeps agreeing accounts in agreement if and only if it does not name a recorded image under a new rendering unrecognised by digest and picture |
| OutcomeContract.AccountsAgreeUnlessSplit | agent/action_outcome.py:237-258 | simulation: over any run of receipts whose images render injectively, both accounts keep the same receipts, order, digests and fingerprints throughout if and only if no receipt splits them |
| OutcomeContract.AccountsAgree | agent/action_outcome.py:237-258 | they do whenever images offered again have one rendering or keep their digest |
| OutcomeContract.ToolReceiptsAgree | agent/tools/browser_session.py:316-345 | they do under the screenshot tool's receipts, taken or restored in any order: each path rendered, each file with its one digest |
| OutcomeContract.TwoPathsDiverge | agent/action_outcome.py:192-199 | a run that does split them: a path repeated with a second rendering, no digest and no fingerprint, which the screenshot tool never returns |
| OutcomeContract.NothingMissingIff | agent/action_outcome.py:260-296 | nothing is missing exactly if the browser was opened, enough images are captured and inspected, some are selected, and the output is there with all of them, nothing else, and its copy sections |
| OutcomeContract.SamePathMeans | agent/action_outcome.py:91-104 | two paths are the same exactly if one, folded and without blanks and closing slashes, is the other or ends in a slash and the other |
| Handoff.ReviewsAreTakenOver | agent/action_outcome.py:211-220 | an evaluation adds the renderings of its images to the inspected ones, each once, and selects exactly the renderings it names |
| Handoff.OutputsAreTakenOver | agent/action_outcome.py:221-235 | a publication replaces the output by the renderings of exactly its image assets and by its copy sections, and touches nothing else |
| Handoff.SamePathIsSymmetric | agent/action_outcome.py:91-104 | path matching is symmetric |
| Handoff.SamePathIsReflexive | agent/action_outcome.py:91-104 | a path matches itself exactly when it is more than blanks and slashes |
| Handoff.SamePathIsNotTransitive | agent/action_outcome.py:91-104 | path matching is not transitive |
| RewriteProofs.PublicationIsTheSelection | agent/action_workflow.py:667-693 | whatever assets the model supplies, the executed publication names exactly the selected images in order |
| PageReports.LookingLeaves | agent/action_workflow.py:396-446 | after a successful look at a page: inspected, ready, to be reloaded, and owing a capture, each by whether a reported error names a broken service, the page crashed, and there is enough to see on it |
| PageReports.LookingLists | agent/action_workflow.py:409-446 | each stripped network or console error that mentions a critical marker becomes a warning on a usable page and a blocker on any other, and page errors become defects only where no service is broken; earlier warnings and defects stay |
| PageReports.WarningsAreRemembered | agent/action_workflow.py:413-422 | in every sequence of events the warnings are the ones there before and exactly those that a successful look at a usable page reported |
| PageReports.PublicationsOwnUp | agent/action_workflow.py:667-693 | on every fresh gated run with such a look, a later rewritten publication with a selection contains the limitation note, and without any such look it contains what the model wrote |
| Receipts.ListingIsTakenOver | agent/action_workflow.py:332-338 | the files after a listing are the normal forms of its lines that are no directories, each once, by first occurrence |
| Receipts.ReadingIsRemembered | agent/action_workflow.py:339-349 | a read file joins the read ones, and a readable package.json replaces what was known under its own path only |
| Receipts.RunsKeepOneEach | agent/action_workflow.py:339-349 | over every run at most one manifest is kept for each path |
| Receipts.InstallingSettles | agent/action_workflow.py:350-354 | only an install that leaves the dependencies installed settles its directory |
| Receipts.StartingProves | agent/action_workflow.py:355-374 | ready exactly if the process reports ready and running and a browser task has an address; a started companion of an open, blocked page asks for a reload |
| Receipts.StartedAddress | agent/action_workflow.py:360-368 | the address after a start: kept while a browser is open, and otherwise by receipt, then by a literal url or port readiness |
| Receipts.CommandsProve | agent/action_workflow.py:375-376 | a command proves a runtime only where no browser is asked for |
| Receipts.OpeningProves | agent/action_workflow.py:385-390 | the browser is open exactly if the receipt says so, at the address it says, with the elements it lists |
| Receipts.LookingSees | agent/action_workflow.py:391-395 | an open browser stays open, and a closed one opens unless the receipt denies it |
| Receipts.PreviewingProves | agent/action_workflow.py:377-384 | a preview is a ready runtime, opened and inspected as its receipt says, and offers one capture if it has one |
| Receipts.ScreenshotsProve | agent/action_workflow.py:447-455 | a screenshot offers its capture and settles the interaction before it |
| Receipts.FailuresAreRemembered | agent/action_workflow.py:308-312 | a failure is remembered with its tool, cut at a thousand characters |
| Receipts.FailedCompanions | agent/action_workflow.py:312-320 | a failed start counts as the attempt at a companion exactly in a server directory, with a blocked page open |
| Receipts.RefusedBrowsers | agent/action_workflow.py:321-328 | a refused browser_open costs the runtime its readiness, and no other failure does |
| Receipts.ReviewingProves | agent/action_workflow.py:456-469 | a finished evaluation counts exactly if it covers every capture, and selects, once each, what it names of its own images |
| Receipts.PublishingProves | agent/action_workflow.py:470-471 | the output becomes ready by a ready publication and nothing else, for good |
| Receipts.OthersProveNothing | agent/action_workflow.py:307-471 | all other tools only clear the failure record |
| Surfaces.StartupNamesMean | agent/action_workflow.py:124-128 | a startup file is a README of any kind or has one of the known names, the manifests among them |
| Surfaces.CandidatesAreOrdered | agent/action_workflow.py:122-136 | among the startup candidates READMEs come first and manifests next, then by depth and by name without case |
| Surfaces.DueMeansUninspected | agent/action_workflow.py:144-153 | the inspection is due while a package file of a browser task is unread, or else while no candidate is read |
| Surfaces.PhaseIsFirstMissing | agent/action_workflow.py:284-305 | the phase is the first, in order, whose purpose is unmet, for every state |
| Surfaces.FreshLacksEverything | agent/action_workflow.py:61-95 | a fresh coordinator lacks exactly what its request asks for, and nothing has failed or been promised yet |
| Surfaces.OfferedIffServing | agent/action_workflow.py:563-633 | short of completion exactly the tools of the base that serve the phase are offered |
| Surfaces.CompleteOffersAll | agent/action_workflow.py:563-579 | once complete, the whole base is offered |
| Surfaces.ServingMeans | agent/action_workflow.py:173-187 | a manifest serves a UI if it depends on a frontend package or a script of it runs a frontend tool |
| Surfaces.FrontendDirectories | agent/action_workflow.py:165-193 | the frontend directories are those of the manifests that serve a UI |
| Surfaces.ServersServeNoUi | agent/action_workflow.py:235-238 | the server directories have manifests, none of which serves a UI |
| Surfaces.StartCommandsMean | agent/action_workflow.py:211-228 | the command of a directory is the dev script of its first manifest, or else its start script |
| Calls.RefusedWithFirstObjection | agent/action_workflow.py:947-1024 | in a request for action a call is accepted exactly if nothing speaks against it, and otherwise refused with the first objection in order |
| Calls.OpeningIsRepaired | agent/action_workflow.py:694-702 | opening goes to the verified address unless the call names it up to blanks and slashes |
| Calls.SessionsAreRepaired | agent/action_workflow.py:703-711 | a browser call carries a session as soon as one is known, its own if it names one |
| Calls.ReloadsAreRepaired | agent/action_workflow.py:712-723 | a look that is to reload the page goes to the verified address |
| Calls.ReviewsAreRepaired | agent/action_workflow.py:649-666 | a review names every capture and has a purpose and criteria to show, the ones of the model if it wrote some |
| Calls.PublicationsAreRepaired | agent/action_workflow.py:667-693 | a publication with a selection attaches the selected images under the stems of their names, unless it names just these paths itself |
| Calls.OtherCallsStay | agent/action_workflow.py:635-898 | no other call is touched, nor a review or publication with nothing to bind |
| Calls.InstallsAreRepaired | agent/action_workflow.py:882-898 | an install at a root without manifest goes to the only frontend |
| Calls.CompanionsAreStarted | agent/action_workflow.py:850-857 | with an open browser and a companion at hand, a start is that of the companion, and only its four arguments change |
| Calls.FrontendsAreStarted | agent/action_workflow.py:858-873 | without a browser a derived frontend command replaces the one of the call, in its directory |
| Calls.OtherStartsLeaveTheRoot | agent/action_workflow.py:874-881 | in all other starts at most the directory moves, from the root to the only frontend |
| Calls.FirstPortIsFound | agent/action_workflow.py:867-870 | a port is found in a text exactly if it holds a colon, one to five digits and then a slash or the end, and it is the first one |
| Calls.PortsAreRepaired | agent/action_workflow.py:865-871 | a port readiness written as a URL becomes its port, and any other readiness stays |
| Calls.FirstOriginIsFound | agent/action_workflow.py:256-262 | the readiness address of a companion is the first loopback origin in the blockers, with up to five digits of a port |
| Calls.CompanionsMean | agent/action_workflow.py:230-264 | there is a companion exactly with a blocker, no attempt yet, a server directory, its command and such an origin |
| Calls.FrontendsMean | agent/action_workflow.py:205-228 | there is a frontend command exactly with one frontend directory whose first manifest declares a script |
| Handoff.NothingUnselectedIsAttached | agent/action_outcome.py:280-293 | after a review, no publication through the coordinator leaves an unselected image in the output |
| Handoff.SelectionIsAttachedIffEvaluated | agent/action_outcome.py:260-296 | the contract still asks for selected images exactly if some selected path matches none that was also evaluated |
| Handoff.EvaluatedSelectionIsHandedIn | agent/runtime.py:6653-6690 | for receipts as the evaluator returns them, every publication through the coordinator attaches all selected images and no others |
| Handoff.PublishedImagesWereEvaluated | agent/action_workflow.py:667-693 | started or resumed, after any events, a publication with a selection names exactly it, and all of it was in the last evaluation |
| Handoff.UnevaluatedSelectionIsNeverAttached | agent/action_outcome.py:211-220 | the hypothesis on the evaluator is needed: a receipt it refuses to return would leave the contract unsatisfiable |
| Convergence.QualityConvergenceEngine.AcceptEvaluation | agent/convergence.py:245-276 | stale and uncovered evaluations are refused with the state left evaluating; accepted ones extend the history and set the decided state, below target or blocked exactly if the evaluation misses the target in some field |
| Convergence.QualityConvergenceEngine.Mutated | agent/convergence.py:241-243 | a mutation advances the counter and demands verification |
| Convergence.RunsAreOrdered | agent/convergence.py:241-279 | over every sequence of mutations and offers the history never goes back to an earlier mutation |
| Convergence.SequenceCountsMutations | agent/convergence.py:241-243 | over every sequence of events the mutation counter is the number of mutations so far |
| Convergence.RecordedAtItsMutation | agent/convergence.py:245-251 | what is recorded was offered, carrying the number of mutations before it |
| Convergence.FreshIsSuffix | agent/convergence.py:266-268 | in such a history the fresh evaluations are a suffix, read backwards |
| Convergence.ConvergedIffJustified | agent/convergence.py:266-276 | converged if and only if the last required entries are all fresh, all pass, and come from enough distinct independent evaluators |
| Convergence.ReleaseIsJustified | agent/convergence.py:278-279 | in every reachable state a release stands on such a tail and on no open finding |
| Convergence.ReleaseIsRevoked | agent/convergence.py:241-276 | after any event a release is possible exactly if the event was an accepted evaluation that makes the tail justified |
| Convergence.UnblockedStepRises | agent/convergence.py:252-264 | a climbing failure is not blocked exactly if the score rose by the delta over the window |
| Convergence.ClimbingRunsAreBounded | agent/convergence.py:252-265 | climbing failures with a positive delta are accepted at most (floor(1/delta)+1)*(window-1) times without blocking |
| Convergence.PlateauBoundIsAttained | agent/convergence.py:252-265 | that bound is exact: a climbing run of this very length never blocks |
| Convergence.ZeroDeltaNeverBlocks | agent/convergence.py:129-130 | with delta zero no run of any kind blocks |
| Convergence.ConvergenceWatchdog.Record | agent/convergence.py:221-227 | replanning is advised exactly when the failures of this approach since its last progress reach the limit |
| Convergence.PassingIsMeeting | agent/convergence.py:196-206 | an evaluation passes exactly if it has the id of the target, an overall score at or above the minimum, every hard gate with the value true, and for every dimension a last score that reaches its minimum |
| Convergence.JustifiedIsShown | agent/convergence.py:266-276 | a history is justified exactly if its last required entries are of the current mutation, meet the target in each field, and come from enough independent evaluators |
| Convergence.ReleaseMeansQuality | agent/convergence.py:278-279 | in every reachable state that may release, each of the required last evaluations covers the artifacts and meets the target in every field |
| Convergence.AnswerMeans | agent/convergence.py:245-276 | a fresh covering evaluation is answered below target or blocked exactly if it misses the target in some field, blocked exactly if its window is flat besides, and converged exactly if the tail shows the quality |
| Convergence.PlateauIsFlat | agent/convergence.py:253-259 | a plateau is a full window in which any two scores lie less than the delta apart |
| Convergence.StreakCountsFruitless | agent/convergence.py:221-227 | the streak counts the attempts of an approach that no progress of it followed |
| SchemaValidation.DefectsRefuteConformance | agent/control.py:747-816 | a defect anywhere below a value means the value does not conform |
| SchemaValidation.CheckScalar | agent/control.py:776-793 | the checks on one value add a genuine defect if and only if one applies, two at most under a well-formed schema |
| SchemaValidation.CollectItems | agent/control.py:794-799 | the item loop with its early exit reports nothing if and only if every item conforms |
| SchemaValidation.CollectRequired | agent/control.py:801-806 | the required loop stops early only on a non-conforming object |
| SchemaValidation.CollectMembers | agent/control.py:812-816 | the member loop with its early exit reports nothing if and only if every known member conforms |
| SchemaValidation.CollectErrors | agent/control.py:747-816 | a list with room grows exactly when the value does not conform, by genuine defects only, to at most one over the limit |
| SchemaValidation.ValidateSchema | agent/control.py:819-826 | validation succeeds exactly on conforming values; otherwise it lists genuine defects, at most 25 under a well-formed schema, and below the limit every one there is; on an enumeration it accepts exactly the options |
| SchemaValidation.CrossedBoundsViolateTwice | agent/control.py:776-782 | a schema with crossed bounds lets one number violate three keywords at once |
| SchemaValidation.EnumerationsMean | agent/control.py:776-777 | an enumeration accepts a text, null or list of such exactly if it is an option, a number or truth value exactly if some option has its amount, and every one of its options |
| SchemaValidation.EnumeratedObjectsMean | agent/control.py:776-777 | of objects with textual values it accepts exactly those with the members of an option, in whatever order |
| SchemaValidation.EnumeratedPropertiesMean | agent/control.py:812-816 | in a property of an object, too, an enumeration accepts exactly its texts |
| SchemaValidation.TypesMean | agent/control.py:763-775 | a type accepts its own values; truth values are no numbers, and whole numbers are numbers |
| SchemaValidation.BoundsMean | agent/control.py:778-793 | bounds hold numbers between them, ends included, lengths hold texts and lists, and nothing else is bounded |
| SchemaValidation.ItemsMean | agent/control.py:794-799 | a rule for items holds for every one of them |
| SchemaValidation.ObjectsMean | agent/control.py:800-816 | every required key is there, a closed schema knows every key, and every value keeps the rule of its key |
| SchemaValidation.KeywordsAreIndependent | agent/control.py:747-816 | a schema holds for a value exactly if it holds keyword by keyword |
| Compaction.EstimateChars | agent/context.py:21-27 | the estimate is the sum of contents and call texts |
| Compaction.BoundLargeResults | agent/context.py:39-52 | only tool results change, each to its clipped form |
| Compaction.ClippedLength | agent/context.py:30-36 | a clipped text exceeds its limit by exactly the marker, and only over-long texts come out over-long |
| Compaction.ClipAgain | agent/context.py:30-36 | clipping a clipped text keeps both ends and counts the old marker |
| Compaction.ClippingKeepsEnds | agent/context.py:30-36 | every pass keeps the same head and tail and changes only the count |
| Compaction.ClippingSettlesByThirdPass | agent/context.py:30-36 | the third pass is a fixed point exactly when the removed count has at most 65 digits |
| Compaction.BoundKeepsPairs | agent/context.py:39-52 | bounding separates no tool result from its call |
| Compaction.CutKeepsPairs | agent/context.py:107-142 | cutting at a user turn and prefixing one user message separates no result from its call |
| Compaction.CompactionCutsAtUserTurns | agent/context.py:94-142 | the result is the bounded input or one user message and a suffix from a user turn, and pairing is kept |
| Compaction.RotationCutsAtUserTurns | agent/context.py:162-186 | the same for rotation, whose suffix is empty only without user turns |
| Compaction.CompactionNeverLengthens | agent/context.py:94-142 | compacting any conversation never adds a message |
| Compaction.CompactionKeepsItsTail | agent/context.py:107-142 | compaction leaves the summary and the kept user turns, and a second one leaves their messages in place |
| Compaction.RotationLengthensOnlyALoneRevival | agent/context.py:162-186 | rotating a rotated conversation lengthens it exactly if only the revived message was left and it exceeds the budget |
| Compaction.RotationsGrowAtMostOnce | agent/context.py:145-186 | after one rotation no number of further calls, with any budgets and summaries, makes the conversation longer, except that a revived message left alone may once be joined by a second |
| Compaction.OnlyTheNextRotationLengthens | agent/context.py:145-186 | where the second call does lengthen the conversation, by one message, no later call does |
| Compaction.RotationIsIdempotentUpToMarkers | agent/context.py:145-186 | below budget a second rotation changes at most counts inside clip markers |
| Compaction.CompactionSummarisesTheHead | agent/context.py:94-142 | within the budget or without more user turns than are kept a conversation is only bounded; otherwise it is the heading and the clipped summary of exactly the messages that are missing, followed by the others, from the user turn with as many turns after it as are kept |
| Compaction.RotationSummarisesTheHead | agent/context.py:162-186 | the same for rotation, whose text holds the stripped, clipped checkpoint and the summary of exactly the messages that are missing, and which keeps the last user turn |
| Compaction.TurnsAreCounted | agent/context.py:108-116 | the places of the user turns are exactly those of the user messages, in order |
| Compaction.ClippingShows | agent/context.py:30-36 | an over-long text keeps its first two thirds and its last third of the limit, and its marker names the number of characters between them |
| Compaction.BoundMeans | agent/context.py:39-52 | exactly the tool results over the limit are changed, each by itself and in nothing but its text |
| Compaction.CharsAdd | agent/context.py:21-27 | the estimate of a conversation is the sum over its messages |
| Compaction.OneMessageCounts | agent/context.py:21-27 | a message counts its content, if any, and the name and arguments of every call |
| TaskDemand.CleanIsClean | agent/capability.py:502-512 | string lists come out stripped and non-blank, and are kept exactly if they were |
| TaskDemand.ParsedDemandIsSound | agent/capability.py:484-513 | every parsed demand has levels one to four, a positive count and a stripped, non-empty rationale |
| TaskDemand.DemandRoundTrip | agent/capability.py:484-551 | a demand survives printing and parsing exactly if it is sound and its rationale stripped |
| Routes.SplitOfJoin | agent/chat_runtime.py:567-574 | splitting words joined by single blanks gives the words back |
| Routes.JoinWordsTwice | agent/chat_runtime.py:567-574 | normalising a title twice is normalising it once |
| RouteRoundTrip.NamesParse | agent/chat_runtime.py:98-134 | the canonical name of an effect is read as that effect and never as "no effect" |
| RouteRoundTrip.OutcomesParse | agent/chat_runtime.py:534-563 | a printed outcome is read back, or refused, exactly as the route table allows |
| RouteRoundTrip.UncertaintiesParse | agent/chat_runtime.py:34-51 | printed uncertainties are read back through aliases and separators |
| RouteRoundTrip.TitleRoundTrip | agent/chat_runtime.py:567-574 | a title is kept exactly if it is normalised, not blank and concise |
| RouteRoundTrip.PrintedEffectsParse | agent/chat_runtime.py:575-602 | the printed switches are read as the same effects in enumeration order |
| RouteRoundTrip.GrantedEffectsAreAuthorized | agent/chat_runtime.py:603-629 | every effect that gets through has its spans, all verbatim user input, and only reading needs none |
| RouteRoundTrip.AuthorityRoundTrip | agent/chat_runtime.py:603-629 | authority presented again is granted again, span by span |
| RouteRoundTrip.ParsedIntakeIsSound | agent/chat_runtime.py:322-429 | every parsed intake is sound, and settled if it supplied summary and demand |
| RouteRoundTrip.IntakeRoundTrip | agent/chat_runtime.py:322-447 | a goal intake survives printing and parsing exactly if it is sound and settled |
| RouteRoundTrip.ParsedDecisionsAreSound | agent/chat_runtime.py:493-706 | every accepted payload gives a decision that is sound for its route, with verbatim authority, on the forced route |
| RouteRoundTrip.DecisionRoundTrip | agent/chat_runtime.py:817-834 | for every decision, printing and parsing gives it back up to effect order if and only if it is sound and settled |
| RouteRoundTrip.SuppliedDecisionsRoundTrip | agent/chat_runtime.py:817-834 | a decision parsed from a payload with its own title, demand and coordination summary survives the round trip |
| RouteTransformations.PromotionKeepsSoundness | agent/chat_runtime.py:726-744 | a promoted action is a sound decision with the same effects and spans |
| RouteTransformations.ContractionKeepsSoundness | agent/chat_runtime.py:746-769 | a contracted goal is a sound decision with the same effects and spans; goals that remain write, reach outside, or ask nothing |
| RouteTransformations.ContractionUndoesPromotion | agent/chat_runtime.py:726-769 | contraction after promotion gives the action back without its response exactly if it neither writes nor reaches outside |
| RouteTransformations.PromotionUndoesContraction | agent/chat_runtime.py:726-769 | promotion after contraction gives the goal back exactly if it was a durable project with tools and no intake |
| RouteTransformations.TransformedDecisionsRoundTrip | agent/chat_runtime.py:726-834 | both transformations of a parsed decision survive printing and parsing |
| RouteTransformations.AllowedToolsSatisfyAllButExternal | agent/chat_runtime.py:781-815 | using every allowed category leaves missing exactly an external effect, if one is requested |
| RouteTransformations.NothingExternal | agent/chat_runtime.py:781-797 | no decision allows an external tool |
| RouteTransformations.MoreToolsMissLess | agent/chat_runtime.py:802-815 | using more categories never leaves more effects missing |
| RouteTransformations.ToolsTraceToUserWords | agent/chat_runtime.py:603-797 | for every payload, a tool category beyond reading and publishing is allowed only on words found in the user's input, and never in a chat |
| RouteTransformations.RepairsOnlyRescue | agent/chat_runtime.py:143-235 | the transport repairs change nothing about a payload that parses without them |
| RouteTransformations.RepairsGrantNothing | agent/chat_runtime.py:143-235 | repaired or not, effects and spans are the ones the payload's own fields authorize |
| RouteTransformations.CutTitleDrifts | agent/chat_runtime.py:568-572 | a title cut from the interpretation can change when parsed again |
| RouteTransformations.BlankCoordinationDrifts | agent/chat_runtime.py:386-388 | an intake with a blank legacy coordination never survives the round trip |
| RouteTransformations.SelectNames | agent/chat_runtime.py:576-589 | the switch loop selects the enabled names, or fails on the first bad switch |
| RouteTransformations.AuthorizeEffects | agent/chat_runtime.py:606-629 | the span loop grants, drops or refuses effects as the authority theorems assume, with the first problem found |
| RouteTransformations.AllowedCategories | agent/chat_runtime.py:781-797 | the update loop collects what the requested effects grant |
| RouteTransformations.FromMapping | agent/chat_runtime.py:493-706 | whatever the payload, an accepted decision is sound with verbatim authority and on the forced route, and survives printing if its fields were supplied; otherwise the first problem is returned |
| RouteMeanings.PayloadsAreAcceptedIffTheySayADecision | agent/chat_runtime.py:493-706 | a payload is accepted if and only if some decision says what it says: an independent, relational reading of every field and every rule between them |
| RouteMeanings.AcceptedDecisionsSayThePayload | agent/chat_runtime.py:493-706 | and the accepted decision is one: its fields are the ones the payload gives, with the defaults, repairs and grants spelled out |
| RouteMeanings.OutcomesMean | agent/chat_runtime.py:534-563 | an outcome is named, or left blank, exactly as the route can have it |
| RouteMeanings.EffectNamesMean | agent/chat_runtime.py:98-134 | an effect is read exactly from its own spellings, whatever their case and blanks |
| RouteMeanings.EffectsMean | agent/chat_runtime.py:575-602 | effects are readable exactly if no switch is malformed and every name asked for is a spelling of an effect or of none, and they are the ones spelled |
| RouteMeanings.AuthorityMeans | agent/chat_runtime.py:603-629 | authority is given exactly if each effect asked for quotes only words of the user, and mutating ones quote some; an external effect without a quotation is dropped, and all quotations are kept |
| RouteMeanings.TitlesMean | agent/chat_runtime.py:567-574 | a title is refused only if the one of the payload is too long; a missing one is the first ten words of the interpretation, cut at eighty characters, and always accepted |
| RouteMeanings.WordsMean | agent/chat_runtime.py:567-574 | words are what stands between blanks |
| RouteMeanings.UncertaintiesMean | agent/chat_runtime.py:34-51 | uncertainty is read from its spellings, whatever their case and separators |
| RouteMeanings.FlagsMean | agent/chat_runtime.py:20-31 | a flag is a truth value or one of three words for it |
| RouteMeanings.DemandsMean | agent/capability.py:484-513 | a demand is read exactly as given, each level in its place, four for a missing one |
| RouteMeanings.ProjectionMeans | agent/capability.py:515-536 | a projected demand rises with two, three and five components, coordinates parallel work at level three or more, and always has a reason |
| RouteMeanings.IntakesMean | agent/chat_runtime.py:322-429 | an intake is read exactly as the payload says it, with nested demands borrowing count, flag and reasons |
| OutcomeRepair.ProductActionsParseIff | agent/chat_runtime.py:143-214 | an action that asks for a product is accepted exactly if its effects can be read, are some, neither write nor reach outside, and come with tools, and it is accepted as a workspace operation; then it is that decision |
| OutcomeRepair.GoalsIgnoreResponses | agent/chat_runtime.py:217-235 | a goal is read as if it had no response of its own |
| Strategy.SelectionIsMonotone | agent/capability.py:604-649 | more demand and weaker or unknown model facts never turn recursive into staged execution |
| Strategy.ConcurrencyIsBounded | agent/capability.py:604-649 | there is always one worker, never more than model and task allow, and several only in parallel recursion |
| Strategy.MissingLevelsAreConservative | agent/capability.py:410-419 | leaving demand levels out of an accepted payload only makes the selection more conservative |
| Strategy.RawFiguresJumpAtAMillion | agent/capability.py:140-164 | a lower raw figure parses to no larger size exactly if both lie on one side of a million or the lower is below the parsed higher one |
| Strategy.LoweredFigureStagesTheTask | agent/capability.py:140-164 | lowering the raw figure from 1000000 to 999999 turns a recursive selection into a staged one |
| Strategy.MaximumIsTheLargest | agent/capability.py:538-540 | the maximum level is at least each of the six levels and equal to one |
| Strategy.StagedIffHandled | agent/capability.py:604-649 | a task is staged exactly if that is the minimum and, where escalation is on, the model handles each level and all components |
| Strategy.WorkersAreTheMost | agent/capability.py:638-648 | workers are the most that model and task allow in parallel recursion, and otherwise one |
| Strategy.SizesMean | agent/capability.py:140-164 | positive figures have a size: themselves below a million, and billions from there on |
| Timeline.ReadTimeline | agent/advanced_tracing.py:236-286 | the loop with its break returns the first matching rows, their last sequence, and whether later events exist |
| Timeline.CursorDropsRead | agent/advanced_tracing.py:246-248 | moving the cursor to the n-th match drops exactly the first n matches |
| Timeline.LastPageIsComplete | agent/advanced_tracing.py:282-286 | a page without more holds every match that was left |
| Timeline.PagesCoverTheTimeline | agent/advanced_tracing.py:236-286 | following the cursor ends, and the pages concatenate to the filtered events: none lost, repeated or moved |
| Timeline.FewPages | agent/advanced_tracing.py:279-286 | reading p pages means more than p-2 full pages of matches: only the last page with rows is partial, and one empty page may follow |
| Timeline.PositiveEventsAreAllSeen | agent/advanced_tracing.py:246-248 | from cursor zero every matching event is seen if and only if their sequences are positive |
| Timeline.EqualSequencesLoseEvents | agent/advanced_tracing.py:282-286 | two events with one sequence on a page boundary: the second is never shown |
| Timeline.ReaderSees | agent/advanced_tracing.py:236-286 | a reader who follows the cursor sees an event exactly if it lies after the start, is of the category asked for, and its text contains the query without case and outer blanks |
| Timeline.PagesAreAsLongAsAsked | agent/advanced_tracing.py:279-286 | a page holds as many rows as asked for, one to a thousand, unless fewer are left |
| AgentAccounting.CountRuns | agent/advanced_tracing.py:474-497 | every stored run is tallied once under its model |
| AgentAccounting.FoldEvents | agent/advanced_tracing.py:532-597 | every agent ends as its own events alone leave it, and waits in the order of its first scheduling event |
| AgentAccounting.HistoriesKeepTheirId | agent/advanced_tracing.py:532-586 | an agent has an entry exactly if an agent event names it |
| AgentAccounting.WaitingOnce | agent/advanced_tracing.py:587-597 | exactly the agents with a scheduling event and no stored action are listed as waiting, once each |
| AgentAccounting.Agents | agent/advanced_tracing.py:474-633 | each event-only agent is listed once and counted once, besides every stored run |
| AgentAccounting.CallsAreConserved | agent/advanced_tracing.py:474-497 | over any listing of the models the call counts add up to the number of calls |
| AgentAccounting.OutcomesFitCalls | agent/advanced_tracing.py:486-489 | completed and failed calls of a model never exceed its calls |
| AgentAccounting.AccountingIsConserved | agent/advanced_tracing.py:604-633 | total calls are the stored runs plus the event-only agents with a model, however many events each has |
| AgentAccounting.TallyCounts | agent/advanced_tracing.py:474-497 | calls, completions and failures are counted under their own model, by the words of the status |
| AgentAccounting.TallyAdds | agent/advanced_tracing.py:474-497 | attempts and tokens of a call are added to its own model and to no other |
| AgentAccounting.LastStatusStands | agent/advanced_tracing.py:532-586 | the last event of an agent with a status, or of a lifecycle kind, fixes its status |
| AgentAccounting.LastGivenStands | agent/advanced_tracing.py:532-586 | the last event of an agent that gives a field decides it |
| AgentAccounting.NeverGivenStaysDefault | agent/advanced_tracing.py:532-586 | what no event of an agent gives stays at its default |
| AgentAccounting.WaitingInOrder | agent/advanced_tracing.py:587-597 | agents wait in the order in which they were first announced |
| AgentAccounting.PanelCalls | agent/advanced_tracing.py:604-633 | the calls of a panel are one per stored run and one per listed agent with a model, each under provider and model |
| PixelMetrics.CountEdges | agent/evaluation.py:560-571 | every neighbouring pair is compared exactly once, 2wh-w-h in all, and the edges are the pairs a step of 18 apart |
| PixelMetrics.Histogram | agent/evaluation.py:553-556 | the histogram counts every quantised colour with its multiplicity |
| PixelMetrics.Dominant | agent/evaluation.py:557-557 | the largest count is found |
| PixelMetrics.AtMost512Colours | agent/evaluation.py:553-558 | eight steps per channel leave at most 512 colours |
| PixelMetrics.Pigeonhole | agent/evaluation.py:553-557 | the pixels number at most the colours times the largest count |
| PixelMetrics.DominantShare | agent/evaluation.py:557-558 | the dominant colour holds at least one pixel in 512 and at most all |
| PixelMetrics.CountClipped | agent/evaluation.py:572-572 | the clipped pixels are the ones at most 5 or at least 250 |
| PixelMetrics.Score | agent/evaluation.py:511-514 | the score is clamped to [0, 1], full from the maximum on and zero up to zero |
| PixelMetrics.Measure | agent/evaluation.py:517-600 | the metrics are the number of colours, the share of edges among neighbouring pairs, the share of the commonest colour, at least 1/512, and of clipped pixels; the composition score lies in [0, 1] |
| PixelMetrics.EdgesMean | agent/evaluation.py:560-571 | an edge is a pair of neighbours whose luminances differ by 18 or more, either way |
| PixelMetrics.CompositionMoves | agent/evaluation.py:574-588 | colour, contrast, variety, edges and a small dominant colour never lower the composition score, and clipping never raises it |
| PixelMetrics.CompositionWeighs | agent/evaluation.py:574-588 | the hundredths that each measure adds on its way from nothing to its full mark |
| PixelMetrics.CompositionExtremes | agent/evaluation.py:574-588 | when the score is full and when it is zero |
| PixelMetrics.LuminanceMeans | agent/evaluation.py:542-542 | a grey pixel is as bright as its channels, and green counts for more than red, red for more than blue |

## Left out

- The coordinator's thirty fields are grouped into seven records; the object updates the records in place.
- browser_act: resolving DOM targets and the wording of repairs (agent/action_workflow.py:724-847), so its arguments are only completed with the session.
- GatedRuns: the rejection of an exact repetition of a read (agent/runtime.py:19901-19904, 19943-19948) is not part of the runs, so a completing run may repeat a listing or a read of package.json; the source refuses the exact repetition of name and arguments only.
- Progress.CompletionIsReachableUnlessDoomed: the completing run exists for some receipts, fair reviews among them; whether the tools return them is another question, and ReviewPaths shows where they do not.
- Readiness: the ports and URLs a process announces in its log, and whether they answer, are a parameter; the schema's enumeration of readiness types (agent/tools/start_process.py:6) is not part of the arguments.
- The order among frontends of equal rank and equal folded name, which the source leaves to set iteration.
- Case folding and digits outside ASCII, in `casefold`, `isdigit` and `int(text, 16)`.
- Handoff: a publication receipt echoes the paths of the executed call, and a path renders the same with either slash; the publishing tool is not part of this model.
- Resumption: restored states are arbitrary states with a listing as observed, a superset of what replaying stored receipts yields (agent/runtime.py:19704-19785); a request without a review has no review to protect.
- The compatibility branch for previews and the request parser of the outcome contract (agent/action_outcome.py:53-66, 147-165, 200-210).
- Convergence: refinement cycles, evaluator routing and fingerprints, which take no part in the decision.
- The text of schema errors (the model reports path and kind), reviews, plan changes and control-call dispatch (agent/control.py:16-81, 690-744, 829-912).
- Compaction: the structural summary's wording (agent/context.py:64-91) and the text of a failed summary, which enter as any text.
- Routes: fields wrapped under `semantic_turn` (agent/chat_runtime.py:507-520), values that are not text where text is expected, decision needs inside questions, and the version field.
- TaskDemand: reading a level out of words or nested objects (agent/capability.py:424-457) arrives as the number read.
- Strategy: model metadata beyond size, context, stated band and concurrency, and the recorded reasons.
- Timeline: the categories and searchable text of events are given, and rows are the events themselves.
- AgentAccounting: latencies, timestamps and redaction; tokens arrive summed per usage record.
- PixelMetrics: colourfulness and contrast are arbitrary reals, since their roots do not affect the bounds; rounding and thumbnailing.
- Floating point: scores, thresholds and luminances are exact.
- agent/cli.py, agent/main.py, agent/llm.py, filesystem, HTTP, hardware and credential code, component templates and keyword tables.
