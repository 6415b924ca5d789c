/** When a call is refused, and what the coordinator repairs in the ones it lets through. */
module Calls {
  import opened Text
  import opened Workflow
  import opened Surfaces
  import opened Completion
  import opened RewriteProofs

  // ---------------------------------------------------------------- objections

  predicate IsRoot(directory: string) { NormPath(directory) == "" || NormPath(directory) == "." }

  /** The directory a call names, or the workspace root. */
  function Named(args: Args, key: Key): string { if TextArg(args, key) == "" then "." else TextArg(args, key) }

  function Kind(args: Args): string {
    Fold(if TextArg(args, ReadinessType) == "" then "none" else TextArg(args, ReadinessType))
  }

  /** What each refusal says, whether or not another one comes first. */
  ghost predicate Objects(s: State, tool: Tool, args: Args, v: Verdict) {
    match v
    case Accepted => false
    case RuntimeStillNeeded =>
      tool == StopProcess && s.contract.requireBrowser && s.runtime.runtimeReady && !s.browser.browserOpened
      && s.runtime.runtimeBlockers == [] && Strip(TextArg(args, ProcessId)) in s.runtime.processIds
    case RuntimeNotReady => tool == BrowserOpen && NeedsRuntime(s) && !s.runtime.runtimeReady
    case UrlNotVerified => tool == BrowserOpen && NeedsRuntime(s) && NormUrl(s.runtime.runtimeUrl) == ""
    case UrlMismatch =>
      tool == BrowserOpen && NeedsRuntime(s) && NormUrl(TextArg(args, Url)) != NormUrl(s.runtime.runtimeUrl)
    case NestedManifests =>
      tool == InstallDependencies && IsRoot(Named(args, Directory)) && "." !in ManifestDirectories(s.project)
      && |ManifestDirectories(s.project)| >= 2
    case NoReadinessSignal => tool == StartProcess && Kind(args) == "none"
    case NoReadinessValue =>
      tool == StartProcess && Kind(args) in {"port", "url", "log"} && Strip(TextArg(args, ReadinessValue)) == ""
    case ReadinessNotAddressable =>
      tool == StartProcess && s.contract.requireBrowser && Kind(args) !in {"port", "url"}
    case NotTheFrontend =>
      tool == StartProcess && s.contract.requireBrowser && !s.browser.browserOpened
      && BrowserDirectories(s.project) != [] && NormDirectory(TextArg(args, Cwd)) !in BrowserDirectories(s.project)
    case BrowserClosed => tool in {BrowserInspect, BrowserAct, BrowserScreenshot} && !s.browser.browserOpened
    case AlreadyInspected =>
      tool == BrowserInspect && s.browser.browserInspected && !s.browser.browserReloadRequired
    case PageNotInspected =>
      tool == BrowserScreenshot && s.contract.screenshotCount > 0 && !s.browser.browserInspected
    case CapturePending => tool == BrowserAct && s.browser.actionPendingCapture
    case CapturesMissing => tool == InspectImages && |s.gallery.capturedPaths| < s.contract.screenshotCount
    case NotReviewed => tool == PublishOutput && s.contract.requireVisualReview && !s.review.visualReviewed
    case NothingSelected => tool == PublishOutput && s.contract.requireVisualReview && s.review.selectedPaths == []
  }

  /** The place of a refusal in the order of the checks. */
  function Order(v: Verdict): nat {
    match v
    case RuntimeStillNeeded => 1
    case RuntimeNotReady => 2
    case UrlNotVerified => 3
    case UrlMismatch => 4
    case NestedManifests => 5
    case NoReadinessSignal => 6
    case NoReadinessValue => 7
    case ReadinessNotAddressable => 8
    case NotTheFrontend => 9
    case BrowserClosed => 10
    case AlreadyInspected => 11
    case PageNotInspected => 12
    case CapturePending => 13
    case CapturesMissing => 14
    case NotReviewed => 15
    case NothingSelected => 16
    case Accepted => 17
  }

  /**
   * In a request for action a call is accepted exactly if nothing speaks against it, and refused with the first thing
   * that does; other requests refuse nothing.
   */
  lemma RefusedWithFirstObjection(s: State, tool: Tool, args: Args, v: Verdict)
    ensures !AsksForAction(s.contract) ==> Validate(s, tool, args) == Accepted
    ensures AsksForAction(s.contract) ==>
              var answer := Validate(s, tool, args);
              && (answer != Accepted ==> Objects(s, tool, args, answer))
              && (Order(v) < Order(answer) ==> !Objects(s, tool, args, v))
  {
    hide NormUrl, NormPath, NormDirectory, Fold, Strip, ManifestDirectories, BrowserDirectories, Active;
    ActionsAreActive(s);
  }

  // ---------------------------------------------------------------- repairs

  /** The two calls differ at most in these arguments. */
  ghost predicate SameBut(a: Args, b: Args, keys: set<Key>) {
    forall k :: k !in keys ==> (k in a <==> k in b) && (k in a && k in b ==> a[k] == b[k])
  }

  /** Opening goes to the verified address, if there is one, unless the call names it up to blanks and slashes. */
  lemma OpeningIsRepaired(s: State, args: Args)
    ensures var fixed := Rewrite(s, BrowserOpen, args);
            && SameBut(fixed, args, {Url})
            && (s.runtime.runtimeReady && s.runtime.runtimeUrl != "" ==>
                  NormUrl(TextArg(fixed, Url)) == NormUrl(s.runtime.runtimeUrl))
            && (!(s.runtime.runtimeReady && s.runtime.runtimeUrl != "") ==> fixed == args)
            && (NormUrl(TextArg(args, Url)) == NormUrl(s.runtime.runtimeUrl) ==> fixed == args)
            && (fixed != args ==> fixed[Url] == Words(s.runtime.runtimeUrl))
  {
    hide NormUrl;
  }

  /** A call in the browser carries a session as soon as one is known, its own if it names one. */
  lemma SessionsAreRepaired(s: State, tool: Tool, args: Args)
    requires tool in {BrowserInspect, BrowserAct, BrowserScreenshot, BrowserClose}
    ensures var fixed := Rewrite(s, tool, args);
            && SameBut(fixed, args, if tool == BrowserInspect then {SessionId, Url} else {SessionId})
            && (Strip(TextArg(args, SessionId)) != "" ==> TextArg(fixed, SessionId) == TextArg(args, SessionId))
            && (Strip(TextArg(args, SessionId)) == "" && s.browser.browserSessionId != "" ==>
                  TextArg(fixed, SessionId) == s.browser.browserSessionId)
            && (s.browser.browserSessionId == "" ==> TextArg(fixed, SessionId) == TextArg(args, SessionId))
  {
    hide Strip, NormUrl;
  }

  /** A look that is to reload the page goes to the verified address, any other where the call says. */
  lemma ReloadsAreRepaired(s: State, args: Args)
    ensures var fixed := Rewrite(s, BrowserInspect, args);
            && (s.browser.browserReloadRequired && s.runtime.runtimeUrl != "" ==>
                  NormUrl(TextArg(fixed, Url)) == NormUrl(s.runtime.runtimeUrl))
            && (!(s.browser.browserReloadRequired && s.runtime.runtimeUrl != "") ==>
                  TextArg(fixed, Url) == TextArg(args, Url))
            && (NormUrl(TextArg(args, Url)) == NormUrl(s.runtime.runtimeUrl) ==>
                  TextArg(fixed, Url) == TextArg(args, Url))
  {
    hide Strip, NormUrl;
  }

  /** A review names every capture, and has a purpose and criteria to show, the model's own if it wrote some. */
  lemma ReviewsAreRepaired(s: State, args: Args, key: Key)
    requires s.gallery.capturedPaths != [] && key in {Purpose, Criteria}
    ensures var fixed := Rewrite(s, InspectImages, args);
            && SameBut(fixed, args, {Paths, Purpose, Criteria})
            && Paths in fixed && fixed[Paths] == Names(s.gallery.capturedPaths)
            && Strip(TextArg(fixed, key)) != ""
            && (Strip(TextArg(args, key)) != "" ==> TextArg(fixed, key) == TextArg(args, key))
  {
    hide Strip, ReviewPurpose, ReviewCriteria;
    var paths := s.gallery.capturedPaths;
    assert Strip(ReviewPurpose(paths)) != "" && Strip(ReviewCriteria(paths)) != "" by { VisibleTexts(paths); }
  }

  /** No other calls are touched, and none when there is nothing to repair them from. */
  lemma OtherCallsStay(s: State, tool: Tool, args: Args)
    requires tool !in {InspectImages, PublishOutput, BrowserOpen, BrowserInspect, BrowserAct, BrowserScreenshot,
                       BrowserClose, StartProcess, InstallDependencies}
             || (tool == InspectImages && s.gallery.capturedPaths == [])
             || (tool == PublishOutput && s.review.selectedPaths == [])
    ensures Rewrite(s, tool, args) == args
  {
  }

  /**
   * A publication with a selection attaches the selected images, each as an image under the stem of its name, unless
   * the call attaches just these paths itself.
   */
  lemma PublicationsAreRepaired(s: State, args: Args)
    requires s.review.selectedPaths != []
    ensures var fixed, paths := Rewrite(s, PublishOutput, args), s.review.selectedPaths;
            && SameBut(fixed, args, {AssetsKey, Message})
            && if SuppliedPaths(args) == ExpectedPaths(paths) then AssetsKey in fixed <==> AssetsKey in args
               else && AssetsKey in fixed && fixed[AssetsKey].Assets? && |fixed[AssetsKey].assets| == |paths|
                    && forall i :: 0 <= i < |paths| ==>
                         fixed[AssetsKey].assets[i] == Asset(paths[i], PathStem(ToSlash(paths[i])), "image")
  {
    hide Strip, ToSlash, PathStem, LimitationNote, Contains, SuppliedPaths, ExpectedPaths;
  }

  /** An install at a root without manifest goes to the only frontend. */
  lemma InstallsAreRepaired(s: State, args: Args)
    ensures var fixed := Rewrite(s, InstallDependencies, args);
            && SameBut(fixed, args, {Directory})
            && (fixed != args ==>
                  && IsRoot(Named(args, Directory)) && "." !in ManifestDirectories(s.project)
                  && BrowserDirectories(s.project) == [TextArg(fixed, Directory)])
            && (IsRoot(Named(args, Directory)) && "." !in ManifestDirectories(s.project)
                && |BrowserDirectories(s.project)| == 1 ==>
                  TextArg(fixed, Directory) == BrowserDirectories(s.project)[0])
  {
    hide NormPath, BrowserDirectories, ManifestDirectories;
    if |BrowserDirectories(s.project)| == 1 {
      var directory := BrowserDirectories(s.project)[0];
      assert BrowserDirectories(s.project) == [directory];
      assert directory in BrowserDirectories(s.project);
      FrontendsHaveManifests(s.project, directory);
    }
  }

  lemma FrontendsHaveManifests(p: Project, directory: string)
    requires directory in BrowserDirectories(p)
    ensures directory in ManifestDirectories(p)
  {
    hide BrowserDirectories, ManifestDirectories, ParentDir, ServesUi;
    FrontendDirectories(p, directory);
    DirectoriesOfManifests(p, directory);
  }

  /** With an open browser and a companion at hand, a start is that of the companion, with its address to wait for. */
  lemma CompanionsAreStarted(s: State, args: Args)
    requires s.browser.browserOpened && CompanionSpec(s).Some?
    ensures var fixed, spec := Rewrite(s, StartProcess, args), CompanionSpec(s).value;
            && SameBut(fixed, args, {Command, Cwd, ReadinessType, ReadinessValue})
            && TextArg(fixed, Command) == spec.command && TextArg(fixed, Cwd) == spec.cwd
            && TextArg(fixed, ReadinessType) == "url" && TextArg(fixed, ReadinessValue) == spec.readinessUrl
  {
    hide CompanionSpec;
  }

  lemma FrontendRepaired(args: Args, spec: StartSpec)
    ensures var fixed := RepairFrontend(args, spec);
            && SameBut(fixed, args, {Command, Cwd, ReadinessValue})
            && (TextArg(fixed, Command) == spec.command || Strip(TextArg(fixed, Command)) == spec.command)
            && TextArg(fixed, ReadinessValue) == TextArg(RepairPort(args), ReadinessValue)
  {
    hide PortIn, Strip, AllDigits, Lower;
  }

  lemma RootLeft(s: State, args: Args)
    ensures var left := LeaveRoot(s, args);
            && SameBut(left, args, {Command, Cwd, ReadinessValue})
            && TextArg(left, Command) == TextArg(args, Command)
            && TextArg(left, ReadinessValue) == TextArg(args, ReadinessValue)
  {
    hide BrowserDirectories, NormPath;
  }

  /** Without a browser, a derived frontend command replaces the call's, in its directory; ports are cut out of URLs. */
  lemma FrontendsAreStarted(s: State, args: Args)
    requires !s.browser.browserOpened && BrowserStartSpec(s.project).Some?
    ensures var fixed, spec := Rewrite(s, StartProcess, args), BrowserStartSpec(s.project).value;
            && SameBut(fixed, args, {Command, Cwd, ReadinessValue})
            && (TextArg(fixed, Command) == spec.command || Strip(TextArg(fixed, Command)) == spec.command)
            && (TextArg(fixed, Cwd) == spec.cwd || Strip(TextArg(fixed, Cwd)) == spec.cwd)
            && TextArg(fixed, ReadinessValue) == TextArg(RepairPort(args), ReadinessValue)
  {
    hide RepairFrontend, RepairPort, LeaveRoot, BrowserStartSpec, CompanionSpec, Strip;
    var spec := BrowserStartSpec(s.project).value;
    FrontendRepaired(args, spec);
    RewrittenCwd(s, args);
    RootLeft(s, args);
  }

  /** In all other starts at the root only the directory moves, to the only frontend, while no browser is open. */
  lemma OtherStartsLeaveTheRoot(s: State, args: Args)
    requires if s.browser.browserOpened then CompanionSpec(s) == None else BrowserStartSpec(s.project) == None
    ensures var fixed := Rewrite(s, StartProcess, args);
            && SameBut(fixed, args, {Cwd})
            && (!s.browser.browserOpened && IsRoot(Named(args, Cwd)) && |BrowserDirectories(s.project)| == 1 ==>
                  TextArg(fixed, Cwd) == BrowserDirectories(s.project)[0])
            && (s.browser.browserOpened || !IsRoot(Named(args, Cwd)) || |BrowserDirectories(s.project)| != 1 ==>
                  fixed == args)
  {
    hide BrowserDirectories, BrowserStartSpec, CompanionSpec, NormPath;
  }

  /** Text with a port: a colon, one to five digits, and then a slash or the end. */
  ghost predicate PortAt(text: string, i: nat, port: string) {
    && i < |text| && text[i] == ':' && AllDigits(port) && |port| <= 5 && port <= text[i + 1..]
    && (i + 1 + |port| == |text| || text[i + 1 + |port|] == '/')
  }

  lemma {:induction false} DigitRunIsMaximal(text: string, n: nat)
    requires n <= |text| && (forall i :: 0 <= i < n ==> IsDigit(text[i])) && (n < |text| ==> !IsDigit(text[n]))
    ensures DigitRun(text) == n
  {
    if n > 0 {
      DigitRunIsMaximal(text[1..], n - 1);
    }
  }

  lemma PortHere(text: string, port: string)
    requires PortAt(text, 0, port)
    ensures PortIn(text) == Some(port)
  {
    var rest := text[1..];
    assert forall i :: 0 <= i < |port| ==> rest[i] == port[i];
    assert |port| < |rest| ==> rest[|port|] == text[1 + |port|];
    DigitRunIsMaximal(rest, |port|);
    assert text[1..1 + |port|] == port;
  }

  lemma PortAtNext(text: string, i: nat, port: string)
    requires text != ""
    ensures PortAt(text, i + 1, port) <==> PortAt(text[1..], i, port)
  {
    if i + 1 < |text| {
      assert text[1..][i + 1..] == text[i + 2..];
    }
  }

  /** A port is found exactly if there is one, and it is the first. */
  lemma {:induction false} FirstPortIsFound(text: string)
    ensures PortIn(text).Some? <==> exists i: nat, port :: PortAt(text, i, port)
    ensures PortIn(text).Some? ==>
              exists i: nat :: PortAt(text, i, PortIn(text).value)
                               && forall j: nat, port :: j < i ==> !PortAt(text, j, port)
  {
    hide AllDigits;
    if text == "" {
    } else if port :| PortAt(text, 0, port) {
      PortHere(text, port);
    } else {
      forall i: nat, port
        ensures PortAt(text, i + 1, port) <==> PortAt(text[1..], i, port)
      {
        PortAtNext(text, i, port);
      }
      FirstPortIsFound(text[1..]);
      NoPortHere(text);
      if PortIn(text).Some? {
        var i: nat :| PortAt(text[1..], i, PortIn(text).value)
                      && forall j: nat, port :: j < i ==> !PortAt(text[1..], j, port);
        assert PortAt(text, i + 1, PortIn(text).value);
        forall j: nat, port | j < i + 1
          ensures !PortAt(text, j, port)
        {
          if j > 0 {
            assert PortAt(text, j - 1 + 1, port) <==> PortAt(text[1..], j - 1, port);
          }
        }
      }
      if i: nat, port :| PortAt(text, i, port) {
        assert PortAt(text, i - 1 + 1, port) <==> PortAt(text[1..], i - 1, port);
      }
    }
  }

  lemma NoPortHere(text: string)
    requires text != "" && forall port :: !PortAt(text, 0, port)
    ensures PortIn(text) == PortIn(text[1..])
  {
    var run := if text[0] == ':' then DigitRun(text[1..]) else 0;
    if 1 <= run <= 5 && (|text| == 1 + run || text[1 + run] == '/') {
      var port := text[1..1 + run];
      DigitRunIsDigits(text[1..]);
      assert forall i :: 0 <= i < run ==> port[i] == text[1..][i];
      assert text[1..][..run] == port;
      assert PortAt(text, 0, port);
    }
  }

  /** A port readiness written as a URL becomes its port; any other readiness stays as it is. */
  lemma PortsAreRepaired(args: Args)
    ensures var value := Strip(TextArg(args, ReadinessValue));
            var fixed := RepairPort(args);
            && SameBut(fixed, args, {ReadinessValue})
            && (fixed != args ==>
                  Lower(TextArg(args, ReadinessType)) == "port" && !AllDigits(value)
                  && Some(TextArg(fixed, ReadinessValue)) == PortIn(value))
            && (Lower(TextArg(args, ReadinessType)) == "port" && !AllDigits(value) && PortIn(value).Some? ==>
                  Some(TextArg(fixed, ReadinessValue)) == PortIn(value))
  {
    hide PortIn, Strip, Lower, AllDigits;
  }

  // ---------------------------------------------------------------- the companion's address

  /** The scheme and host of a loopback origin, in lower case. */
  const LOOPBACK: set<string> := {
    "http://localhost", "http://127.0.0.1", "http://[::1]", "https://localhost", "https://127.0.0.1", "https://[::1]"}

  /** The text starts with a loopback origin whose scheme and host have this length. */
  ghost predicate Loopback(text: string, n: nat) { n <= |text| && Lower(text[..n]) in LOOPBACK }

  /** The origin at the start of the text: scheme and host, and up to five digits of a port that follow a colon. */
  ghost predicate OriginOf(text: string, n: nat, origin: string) {
    && Loopback(text, n) && origin <= text && n <= |origin|
    && (|origin| == n ==> n + 1 >= |text| || text[n] != ':' || !IsDigit(text[n + 1]))
    && (|origin| > n ==>
          && origin[n] == ':' && AllDigits(origin[n + 1..]) && |origin| <= n + 6
          && (|origin| < n + 6 && |origin| < |text| ==> !IsDigit(text[|origin|])))
  }

  lemma LowerPrefix(text: string, n: nat, folded: string)
    requires n <= |text|
    ensures Lower(text[..n]) == folded <==> |folded| == n && folded <= Lower(text)
  {
    assert Lower(text[..n]) == Lower(text)[..n];
  }

  lemma SchemeAndHost(folded: string, scheme: string, host: string)
    ensures scheme + host <= folded <==> scheme <= folded && host <= folded[|scheme|..]
  {
    if scheme <= folded && host <= folded[|scheme|..] {
      assert forall i :: 0 <= i < |host| ==> folded[|scheme| + i] == folded[|scheme|..][i];
    }
    if scheme + host <= folded {
      assert forall i :: 0 <= i < |scheme| ==> scheme[i] == (scheme + host)[i];
      assert forall i :: 0 <= i < |host| ==> host[i] == (scheme + host)[|scheme| + i];
    }
  }

  /** How long scheme and host of the origin at the start of a folded text are, zero for none. */
  function BaseLength(folded: string): nat {
    var scheme := if "https://" <= folded then 8 else if "http://" <= folded then 7 else 0;
    if scheme == 0 then 0
    else if "localhost" <= folded[scheme..] || "127.0.0.1" <= folded[scheme..] then scheme + 9
    else if "[::1]" <= folded[scheme..] then scheme + 5 else 0
  }

  /** Scheme and host of a loopback origin at the start of a folded text have this length. */
  ghost predicate StartsAs(folded: string, scheme: string, n: nat) {
    || (scheme + "localhost" <= folded && n == |scheme| + 9)
    || (scheme + "127.0.0.1" <= folded && n == |scheme| + 9)
    || (scheme + "[::1]" <= folded && n == |scheme| + 5)
  }

  lemma BasesAreListed(folded: string, n: nat)
    ensures (exists base :: base in LOOPBACK && |base| == n && base <= folded)
            <==> StartsAs(folded, "http://", n) || StartsAs(folded, "https://", n)
  {
    assert "http://localhost" == "http://" + "localhost" && "http://127.0.0.1" == "http://" + "127.0.0.1";
    assert "http://[::1]" == "http://" + "[::1]" && "https://localhost" == "https://" + "localhost";
    assert "https://127.0.0.1" == "https://" + "127.0.0.1" && "https://[::1]" == "https://" + "[::1]";
  }

  lemma HostMeans(folded: string, scheme: string, n: nat)
    ensures StartsAs(folded, scheme, n) <==>
              scheme <= folded
              && if "localhost" <= folded[|scheme|..] || "127.0.0.1" <= folded[|scheme|..] then n == |scheme| + 9
                 else "[::1]" <= folded[|scheme|..] && n == |scheme| + 5
  {
    SchemeAndHost(folded, scheme, "localhost");
    SchemeAndHost(folded, scheme, "127.0.0.1");
    SchemeAndHost(folded, scheme, "[::1]");
    assert "[::1]"[0] == '[' && "localhost"[0] == 'l' && "127.0.0.1"[0] == '1';
  }

  lemma BaseMeans(folded: string, n: nat)
    ensures (exists base :: base in LOOPBACK && |base| == n && base <= folded) <==> n > 0 && BaseLength(folded) == n
  {
    BasesAreListed(folded, n);
    HostMeans(folded, "http://", n);
    HostMeans(folded, "https://", n);
    hide StartsAs;
    assert "https://"[4] == 's' && "http://"[4] == ':';
  }

  lemma LoopbackMeans(text: string, n: nat)
    ensures Loopback(text, n) <==> n > 0 && BaseLength(Lower(text)) == n
  {
    hide Lower, BaseLength;
    BaseMeans(Lower(text), n);
    if n <= |text| {
      LowerPrefix(text, n, Lower(text[..n]));
      assert |Lower(text[..n])| == n && |Lower(text)| == |text| by { LowerLength(text, n); }
      forall base | base in LOOPBACK && |base| == n && base <= Lower(text)
        ensures base == Lower(text[..n])
      {
        LowerPrefix(text, n, base);
      }
    } else {
      assert |Lower(text)| == |text| by { LowerLength(text, 0); }
    }
  }

  lemma LowerLength(text: string, n: nat)
    requires n <= |text|
    ensures |Lower(text)| == |text| && |Lower(text[..n])| == n
  {
  }

  lemma {:induction false} DigitRunEnds(s: string)
    ensures DigitRun(s) < |s| ==> !IsDigit(s[DigitRun(s)])
  {
    if s != "" && IsDigit(s[0]) {
      DigitRunEnds(s[1..]);
    }
  }

  lemma OriginByBase(text: string)
    ensures BaseLength(Lower(text)) <= |text|
    ensures var n := BaseLength(Lower(text));
            var rest := text[n..];
            var run := if rest != "" && rest[0] == ':' then DigitRun(rest[1..]) else 0;
            OriginAt(text) == if n == 0 then None
                              else Some(text[..n + (if run == 0 then 0 else 1 + if run > 5 then 5 else run)])
  {
    assert |Lower(text)| == |text|;
  }

  lemma OriginHere(text: string)
    ensures OriginAt(text).Some? <==> exists n: nat :: Loopback(text, n)
    ensures OriginAt(text).Some? ==> exists n: nat :: OriginOf(text, n, OriginAt(text).value)
  {
    hide Lower, BaseLength, OriginAt, Loopback, DigitRun;
    var n := BaseLength(Lower(text));
    LoopbackMeans(text, n);
    forall k: nat
      ensures Loopback(text, k) <==> k > 0 && n == k
    {
      LoopbackMeans(text, k);
    }
    OriginByBase(text);
    if n > 0 {
      var rest := text[n..];
      var run := if rest != "" && rest[0] == ':' then DigitRun(rest[1..]) else 0;
      if rest != "" {
        DigitRunIsDigits(rest[1..]);
        DigitRunEnds(rest[1..]);
        assert forall i :: 0 <= i < |rest| - 1 ==> rest[1..][i] == text[n + 1 + i];
      }
      var origin := OriginAt(text).value;
      assert origin == text[..|origin|];
      assert OriginOf(text, n, origin);
    }
  }

  /** The origin found in a text is the first one in it. */
  lemma {:induction false} FirstOriginIsFound(text: string)
    ensures FindOrigin(text).Some? <==> exists i: nat, n: nat :: i <= |text| && Loopback(text[i..], n)
    ensures FindOrigin(text).Some? ==>
              exists i: nat, n: nat :: i <= |text| && OriginOf(text[i..], n, FindOrigin(text).value)
                                       && forall j: nat, m: nat :: j < i ==> !Loopback(text[j..], m)
  {
    hide OriginAt, Loopback, OriginOf;
    OriginHere(text);
    assert text[0..] == text;
    if OriginAt(text).Some? {
      var n: nat :| OriginOf(text, n, OriginAt(text).value);
      assert OriginOf(text[0..], n, FindOrigin(text).value);
      var m: nat :| Loopback(text, m);
      assert Loopback(text[0..], m);
    } else if text == "" {
    } else {
      FirstOriginIsFound(text[1..]);
      forall i: nat | i <= |text[1..]|
        ensures text[1..][i..] == text[i + 1..]
      {
      }
      if i: nat, n: nat :| i <= |text| && Loopback(text[i..], n) {
        assert i > 0 && text[1..][i - 1..] == text[i..];
      }
      if FindOrigin(text).Some? {
        var i: nat, n: nat :| i <= |text[1..]| && OriginOf(text[1..][i..], n, FindOrigin(text).value)
                              && forall j: nat, m: nat :: j < i ==> !Loopback(text[1..][j..], m);
        assert OriginOf(text[i + 1..], n, FindOrigin(text).value);
        forall j: nat, m: nat | j < i + 1
          ensures !Loopback(text[j..], m)
        {
          if j > 0 {
            assert text[1..][j - 1..] == text[j..];
          }
        }
      }
    }
  }

  /** The companion of a blocked page: untried, with a server directory, a command and an origin in the blockers. */
  lemma CompanionsMean(s: State)
    ensures CompanionSpec(s).Some? <==>
              && s.runtime.runtimeBlockers != [] && !s.runtime.companionStartAttempted
              && ServerDirectories(s.project) != []
              && StartCommand(s.project, ServerDirectories(s.project)[0]).Some?
              && FindOrigin(Join(s.runtime.runtimeBlockers, " ")).Some?
    ensures CompanionSpec(s).Some? ==>
              var spec := CompanionSpec(s).value;
              && spec.cwd == ServerDirectories(s.project)[0]
              && Some(spec.command) == StartCommand(s.project, spec.cwd)
              && Some(spec.readinessUrl) == FindOrigin(Join(s.runtime.runtimeBlockers, " "))
  {
    hide ServerDirectories, StartCommand, FindOrigin, Join;
  }

  /** The frontend command: there is one frontend directory, and its manifest declares a script. */
  lemma FrontendsMean(p: Project)
    ensures BrowserStartSpec(p).Some? <==>
              |BrowserDirectories(p)| == 1 && StartCommand(p, BrowserDirectories(p)[0]).Some?
    ensures BrowserStartSpec(p).Some? ==>
              && BrowserDirectories(p) == [BrowserStartSpec(p).value.cwd]
              && Some(BrowserStartSpec(p).value.command) == StartCommand(p, BrowserStartSpec(p).value.cwd)
  {
    hide BrowserDirectories, StartCommand;
  }
}
