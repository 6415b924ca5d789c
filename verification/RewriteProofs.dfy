/** Argument repair settles after one pass, with one exception, and repaired calls meet the checks they aim at. */
module RewriteProofs {
  import opened Text
  import opened Workflow
  import opened Completion

  lemma SameText(args: Args, key: Key, text: string)
    requires key in args && args[key] == Words(text)
    ensures args[key := Words(text)] == args
  {
  }

  // ---------------------------------------------------------------- review, publication, browser

  lemma ReviewTwice(s: State, args: Args)
    ensures RewriteReview(s, RewriteReview(s, args)) == RewriteReview(s, args)
  {
    hide Strip, ReviewPurpose, ReviewCriteria;
    if s.gallery.capturedPaths != [] {
      VisibleTexts(s.gallery.capturedPaths);
      var once := RewriteReview(s, args);
      assert once[Paths := Names(s.gallery.capturedPaths)] == once;
    }
  }

  lemma VisibleTexts(paths: seq<string>)
    ensures Strip(ReviewPurpose(paths)) != "" && Strip(ReviewCriteria(paths)) != ""
  {
    hide Strip, IsSpace, ReviewPurpose, ReviewCriteria;
    PurposeStarts(paths);
    CriteriaStarts(paths);
    StartsVisible(ReviewPurpose(paths));
    StartsVisible(ReviewCriteria(paths));
  }

  lemma PurposeStarts(paths: seq<string>)
    ensures ReviewPurpose(paths) != "" && !IsSpace(ReviewPurpose(paths)[0])
  {
    assert ReviewPurpose(paths)[0] == 'E';
  }

  lemma CriteriaStarts(paths: seq<string>)
    ensures ReviewCriteria(paths) != "" && !IsSpace(ReviewCriteria(paths)[0])
  {
    assert ReviewCriteria(paths)[0] == 'C';
  }

  lemma StartsVisible(text: string)
    requires text != "" && !IsSpace(text[0])
    ensures Strip(text) != ""
  {
    FirstVisible(text);
  }

  /** A note appended to a stripped message is found again in the stripped result. */
  lemma NoteIsFound(message: string, note: string)
    requires note != "" && Trimmed(note, IsSpace) && Trimmed(message, IsSpace)
    ensures var text := Strip(message + "\n\n" + note);
            Strip(text) == text && Contains(text, note) && message <= text
  {
    var gap := "\n\n";
    var text := message + gap + note;
    if message == "" {
      assert text[0] == '\n' && text[1..][0] == '\n' && text[1..][1..] == note;
      assert TrimLeft(text, IsSpace) == TrimLeft(text[1..], IsSpace) == TrimLeft(note, IsSpace) == note;
      TrimTrims(note, IsSpace);
      ContainsSuffix("", note);
      assert "" + note == note;
    } else {
      assert text[0] == message[0] && text[|text| - 1] == note[|note| - 1];
      assert Trimmed(text, IsSpace);
      TrimTrims(text, IsSpace);
      ContainsSuffix(message + gap, note);
    }
  }

  lemma NoteIsTrimmed(warnings: seq<string>)
    requires warnings != []
    ensures LimitationNote(warnings) != "" && Trimmed(LimitationNote(warnings), IsSpace)
  {
    var note := LimitationNote(warnings);
    assert note[0] == 'L' && note[|note| - 1] == '.';
  }

  lemma PublishTwice(s: State, args: Args)
    ensures RewritePublish(s, RewritePublish(s, args)) == RewritePublish(s, args)
  {
    hide Trim, Contains, LimitationNote, NormPath, PathStem, ToSlash;
    if s.review.selectedPaths != [] {
      var message := Strip(TextArg(args, Message));
      var once := RewritePublish(s, args);
      if s.runtime.degradedRuntimeWarnings != [] {
        NoteIsTrimmed(s.runtime.degradedRuntimeWarnings);
        TrimTrims(TextArg(args, Message), IsSpace);
        NoteIsFound(message, LimitationNote(s.runtime.degradedRuntimeWarnings));
      } else {
        assert LimitationNote(s.runtime.degradedRuntimeWarnings) == "" by { NoWarnings(s.runtime.degradedRuntimeWarnings); }
      }
      BoundTwice(s, args);
      assert SuppliedPaths(once) == ExpectedPaths(s.review.selectedPaths)
             || once[AssetsKey := Assets(ExpectedAssets(s.review.selectedPaths))] == once;
    }
  }

  lemma NoWarnings(warnings: seq<string>)
    requires warnings == []
    ensures LimitationNote(warnings) == ""
  {
  }

  lemma BoundTwice(s: State, args: Args)
    requires s.review.selectedPaths != []
    ensures if SuppliedPaths(args) == ExpectedPaths(s.review.selectedPaths)
            then SuppliedPaths(RewritePublish(s, args)) == ExpectedPaths(s.review.selectedPaths)
            else AssetsKey in RewritePublish(s, args)
                 && RewritePublish(s, args)[AssetsKey] == Assets(ExpectedAssets(s.review.selectedPaths))
  {
    hide Strip, Contains, LimitationNote, NormPath, PathStem, ToSlash;
  }

  lemma OpenTwice(s: State, args: Args)
    ensures RewriteOpen(s, RewriteOpen(s, args)) == RewriteOpen(s, args)
  {
    hide NormUrl;
  }

  lemma SessionTwice(s: State, args: Args)
    ensures RewriteSession(s, RewriteSession(s, args)) == RewriteSession(s, args)
  {
    hide Strip;
    var once := RewriteSession(s, args);
    if once != args {
      SameText(once, SessionId, s.browser.browserSessionId);
    }
  }

  lemma InspectTwice(s: State, args: Args)
    ensures RewriteInspect(s, RewriteInspect(s, args)) == RewriteInspect(s, args)
  {
    hide Strip, NormUrl;
    var once := RewriteInspect(s, args);
    if RewriteSession(s, args) != args {
      SameText(once, SessionId, s.browser.browserSessionId);
    }
  }

  lemma InstallTwice(s: State, args: Args)
    ensures RewriteInstall(s, RewriteInstall(s, args)) == RewriteInstall(s, args)
  {
    hide NormPath, BrowserDirectories, ManifestDirectories;
  }

  // ---------------------------------------------------------------- start_process

  lemma {:induction false} DigitRunIsDigits(s: string)
    ensures forall i :: 0 <= i < DigitRun(s) ==> IsDigit(s[i])
  {
    if s != "" && IsDigit(s[0]) {
      DigitRunIsDigits(s[1..]);
      assert forall i :: 1 <= i < DigitRun(s) ==> s[i] == s[1..][i - 1];
    }
  }

  lemma DigitsAreTrimmed(text: string)
    requires forall i :: 0 <= i < |text| ==> IsDigit(text[i])
    ensures Strip(text) == text
  {
    hide Trim;
    if text != "" {
      assert IsDigit(text[0]) && IsDigit(text[|text| - 1]);
    }
    assert Trimmed(text, IsSpace);
    TrimTrims(text, IsSpace);
  }

  lemma {:induction false} PortIsDigits(text: string)
    requires PortIn(text).Some?
    ensures AllDigits(PortIn(text).value) && Strip(PortIn(text).value) == PortIn(text).value
  {
    var run := if text[0] == ':' then DigitRun(text[1..]) else 0;
    if 1 <= run <= 5 && (|text| == 1 + run || text[1 + run] == '/') {
      DigitRunIsDigits(text[1..]);
      var port := text[1..1 + run];
      assert forall i :: 0 <= i < |port| ==> port[i] == text[1..][i];
      DigitsAreTrimmed(port);
    } else {
      PortIsDigits(text[1..]);
    }
  }

  lemma PortTwice(args: Args)
    ensures RepairPort(RepairPort(args)) == RepairPort(args)
  {
    hide PortIn, Strip, Lower, AllDigits;
    var value := Strip(TextArg(args, ReadinessValue));
    if PortIn(value).Some? {
      PortIsDigits(value);
    }
  }

  lemma SetTwice(args: Args, key: Key, value: string)
    ensures SetText(SetText(args, key, value), key, value) == SetText(args, key, value)
  {
    hide Strip;
  }

  /** Setting one text leaves every other argument alone, and settles its own. */
  lemma RepairTwice(args: Args, spec: StartSpec)
    ensures RepairFrontend(RepairFrontend(args, spec), spec) == RepairFrontend(args, spec)
  {
    hide PortIn, Strip, Lower, AllDigits;
    var b := SetText(args, Command, spec.command);
    var c := SetText(b, Cwd, spec.cwd);
    var d := RepairPort(c);
    SetTwice(args, Command, spec.command);
    SetTwice(b, Cwd, spec.cwd);
    PortTwice(c);
    Settled(d, Command, spec.command);
    Settled(d, Cwd, spec.cwd);
  }

  lemma Settled(args: Args, key: Key, value: string)
    requires Strip(TextArg(args, key)) == value || (key in args && args[key] == Words(value))
    ensures SetText(args, key, value) == args
  {
    hide Strip;
  }

  /**
   * The one repair that needs two passes: the only frontend is the workspace root, the model wrote its "." with
   * surrounding blanks, and something else in the call was repaired first.
   */
  predicate PaddedRoot(s: State, tool: Tool, args: Args) {
    && tool == StartProcess
    && !s.browser.browserOpened
    && BrowserStartSpec(s.project).Some?
    && BrowserStartSpec(s.project).value.cwd == "."
    && RepairFrontend(args, BrowserStartSpec(s.project).value) != args
    && TextArg(args, Cwd) != "."
    && Strip(TextArg(args, Cwd)) == "."
  }

  lemma RepairedCwd(args: Args, spec: StartSpec)
    requires spec.cwd != ""
    ensures var cwd := TextArg(RepairFrontend(args, spec), Cwd);
            && Cwd in RepairFrontend(args, spec) && RepairFrontend(args, spec)[Cwd] == Words(cwd)
            && (cwd == spec.cwd || (Strip(cwd) == spec.cwd && cwd == TextArg(args, Cwd)))
            && (Strip(TextArg(args, Cwd)) == spec.cwd ==> cwd == TextArg(args, Cwd))
  {
    hide PortIn, Strip, Lower, AllDigits;
    EmptyStrips();
  }

  lemma LeaveRootTwice(s: State, args: Args)
    ensures LeaveRoot(s, LeaveRoot(s, args)) == LeaveRoot(s, args)
  {
    hide NormPath, BrowserDirectories;
  }

  /** When the first pass repaired the frontend call, the second pass moves cwd only for a padded root. */
  lemma RepairThenLeave(s: State, args: Args)
    requires !s.browser.browserOpened && BrowserStartSpec(s.project).Some?
    requires RepairFrontend(args, BrowserStartSpec(s.project).value) != args
    ensures var once := RepairFrontend(args, BrowserStartSpec(s.project).value);
            LeaveRoot(s, once) == once <==> !PaddedRoot(s, StartProcess, args)
  {
    hide PortIn, Strip, BrowserDirectories, BrowserStartSpec, RepairFrontend;
    var spec := BrowserStartSpec(s.project).value;
    SpecIsOnlyFrontend(s.project);
    RepairedCwd(args, spec);
    var once := RepairFrontend(args, spec);
    var cwd := TextArg(once, Cwd);
    if cwd == spec.cwd {
      assert LeaveRoot(s, once) == once;
      assert Strip(TextArg(args, Cwd)) == spec.cwd ==> TextArg(args, Cwd) == spec.cwd;
    } else {
      EmptyStrips();
      assert NormPath(OrElse(cwd, ".")) == ToSlash(spec.cwd);
      OnlyDotIsRoot(spec.cwd);
    }
  }

  lemma OnlyDotIsRoot(text: string)
    requires text != ""
    ensures ToSlash(text) in {"", "."} <==> text == "."
  {
    if ToSlash(text) == "." {
      assert ToSlash(text)[0] == '.';
    }
  }

  lemma FrontendTwice(s: State, args: Args)
    requires !s.browser.browserOpened && BrowserStartSpec(s.project).Some?
    ensures RewriteStart(s, RewriteStart(s, args)) == RewriteStart(s, args) <==> !PaddedRoot(s, StartProcess, args)
  {
    hide PortIn, Strip, BrowserDirectories, BrowserStartSpec, RepairFrontend, LeaveRoot, CompanionSpec;
    var spec := BrowserStartSpec(s.project).value;
    if RepairFrontend(args, spec) != args {
      RepairTwice(args, spec);
      RepairThenLeave(s, args);
    } else {
      LeftRootIsRepaired(s, args);
      LeaveRootTwice(s, args);
    }
  }

  lemma LeftRootIsRepaired(s: State, args: Args)
    requires !s.browser.browserOpened && BrowserStartSpec(s.project).Some?
    requires RepairFrontend(args, BrowserStartSpec(s.project).value) == args
    ensures RepairFrontend(LeaveRoot(s, args), BrowserStartSpec(s.project).value) == LeaveRoot(s, args)
  {
    hide PortIn, Strip, BrowserDirectories, BrowserStartSpec, NormPath, AllDigits, Lower;
    SpecIsOnlyFrontend(s.project);
  }

  lemma StartTwice(s: State, args: Args)
    ensures RewriteStart(s, RewriteStart(s, args)) == RewriteStart(s, args) <==> !PaddedRoot(s, StartProcess, args)
  {
    hide PortIn, Strip, BrowserDirectories, BrowserStartSpec, RepairFrontend, LeaveRoot, CompanionSpec;
    if !s.browser.browserOpened && BrowserStartSpec(s.project).Some? {
      FrontendTwice(s, args);
    } else {
      LeaveRootTwice(s, args);
    }
  }

  /** For every tool but browser_act, repairing twice is repairing once exactly outside the padded-root case. */
  lemma RewriteIsIdempotentUnlessPadded(s: State, tool: Tool, args: Args)
    requires tool != BrowserAct
    ensures Rewrite(s, tool, Rewrite(s, tool, args)) == Rewrite(s, tool, args) <==> !PaddedRoot(s, tool, args)
  {
    hide RewriteReview, RewritePublish, RewriteOpen, RewriteInspect, RewriteSession, RewriteStart, RewriteInstall,
         PaddedRoot;
    assert tool != StartProcess ==> !PaddedRoot(s, tool, args) by { OnlyStartIsPadded(s, tool, args); }
    match tool {
      case InspectImages => ReviewTwice(s, args);
      case PublishOutput => PublishTwice(s, args);
      case BrowserOpen => OpenTwice(s, args);
      case BrowserInspect => InspectTwice(s, args);
      case BrowserScreenshot => SessionTwice(s, args);
      case BrowserClose => SessionTwice(s, args);
      case StartProcess => StartTwice(s, args);
      case InstallDependencies => InstallTwice(s, args);
      case _ =>
    }
  }

  lemma OnlyStartIsPadded(s: State, tool: Tool, args: Args)
    ensures PaddedRoot(s, tool, args) ==> tool == StartProcess
  {
    hide BrowserStartSpec, RepairFrontend, Strip;
  }

  // ---------------------------------------------------------------- repaired calls meet their checks

  /** A repaired browser_open is accepted exactly when no runtime is needed or a visible verified URL exists. */
  lemma RewrittenOpenVerdict(s: State, raw: Args)
    ensures Validate(s, BrowserOpen, Rewrite(s, BrowserOpen, raw)) == Accepted
            <==> !Active(s) || !NeedsRuntime(s) || (s.runtime.runtimeReady && NormUrl(s.runtime.runtimeUrl) != "")
  {
    hide Strip, TrimRight;
    EmptyStrips();
  }

  lemma EmptyStrips()
    ensures Strip("") == "" && TrimRight("", IsSlash) == ""
  {
  }

  /**
   * With a frontend command at hand and no browser yet, every repaired start_process passes the working-directory
   * check exactly when the frontend's directory is its own normal form.
   */
  lemma RewrittenStartDirectory(s: State, raw: Args)
    requires !s.browser.browserOpened && BrowserStartSpec(s.project).Some?
    ensures var directory := BrowserStartSpec(s.project).value.cwd;
            NormDirectory(TextArg(Rewrite(s, StartProcess, raw), Cwd)) in BrowserDirectories(s.project)
            <==> NormDirectory(directory) == directory
  {
    hide BrowserDirectories, BrowserStartSpec, NormDirectory, RewriteStart, Strip;
    SpecIsOnlyFrontend(s.project);
    RewrittenCwd(s, raw);
    var cwd := TextArg(RewriteStart(s, raw), Cwd);
    if Strip(cwd) == BrowserStartSpec(s.project).value.cwd {
      SameDirectory(cwd, BrowserStartSpec(s.project).value.cwd);
    }
  }

  // ---------------------------------------------------------------- what is published

  /** Every selected path is free of blanks around it, as a review leaves it. */
  ghost predicate StrippedSelection(s: State) {
    forall i :: 0 <= i < |s.review.selectedPaths| ==> Strip(s.review.selectedPaths[i]) == s.review.selectedPaths[i]
  }

  /** Whatever the model supplies, the repaired publication names exactly the selected images, in order. */
  lemma PublicationIsTheSelection(s: State, raw: Args)
    requires s.review.selectedPaths != [] && StrippedSelection(s)
    ensures SuppliedPaths(Rewrite(s, PublishOutput, raw)) == ExpectedPaths(s.review.selectedPaths)
  {
    hide Strip, ToSlash, PathStem, LimitationNote, Contains;
    BoundTwice(s, raw);
    if SuppliedPaths(raw) != ExpectedPaths(s.review.selectedPaths) {
      var assets := ExpectedAssets(s.review.selectedPaths);
      forall i | 0 <= i < |assets|
        ensures NormPath(assets[i].path) == ToSlash(s.review.selectedPaths[i])
      {
        assert assets[i].path == s.review.selectedPaths[i];
      }
    }
  }

  /** With a companion service degraded, the repaired message says what it said before, and then the limitation. */
  lemma PublicationCarriesLimitation(s: State, args: Args)
    requires s.review.selectedPaths != [] && s.runtime.degradedRuntimeWarnings != []
    ensures Contains(Strip(TextArg(RewritePublish(s, args), Message)), LimitationNote(s.runtime.degradedRuntimeWarnings))
    ensures Strip(TextArg(args, Message)) <= Strip(TextArg(RewritePublish(s, args), Message))
  {
    hide Strip, LimitationNote, Contains, ExpectedAssets, ExpectedPaths, SuppliedPaths;
    var note := LimitationNote(s.runtime.degradedRuntimeWarnings);
    NoteIsTrimmed(s.runtime.degradedRuntimeWarnings);
    assert Trimmed(Strip(TextArg(args, Message)), IsSpace) by { StripTrims(TextArg(args, Message)); }
    NoteIsFound(Strip(TextArg(args, Message)), note);
  }

  lemma StripTrims(text: string)
    ensures Trimmed(Strip(text), IsSpace)
  {
    TrimTrims(text, IsSpace);
  }
}
