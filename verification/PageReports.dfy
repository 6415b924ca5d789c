/** What looking at a page proves and what it costs: broken servers, degraded companions, defective pages. */
module PageReports {
  import opened Text
  import opened Workflow
  import opened GatedRuns
  import opened RewriteProofs

  const BREAKING_MARKERS: set<string> := {
    "err_connection_refused", "connection refused", "err_name_not_resolved", "err_connection_timed_out",
    "http 500", "http 502", "http 503", "http 504" }

  /** An error text that tells of a broken service. */
  ghost predicate Breaking(raw: string) {
    Strip(raw) != "" && exists marker :: marker in BREAKING_MARKERS && Contains(Lower(Strip(raw)), marker)
  }

  /** The page reported this error text, with blanks around it perhaps. */
  ghost predicate Reported(r: Receipt, text: string) {
    exists raw :: raw in r.networkErrors + r.consoleErrors && Breaking(raw) && text == Strip(raw)
  }

  /** The page shows an uncaught error of its own. */
  ghost predicate Crashed(r: Receipt, text: string) {
    exists raw :: raw in r.pageErrors && text == Strip(raw) && text != ""
  }

  /** Captures are owed, and there is enough on the page to capture. */
  predicate Usable(c: Contract, r: Receipt) {
    c.requireBrowser && c.screenshotCount > 0 && (|r.visibleText| >= 80 || |r.targets| >= 2)
  }

  // ---------------------------------------------------------------- the errors of a page

  lemma MarkersMean(folded: string)
    ensures IsCritical(folded) <==> exists marker :: marker in BREAKING_MARKERS && Contains(folded, marker)
  {
    hide Contains;
    var markers := ["err_connection_refused", "connection refused", "err_name_not_resolved",
      "err_connection_timed_out", "http 500", "http 502", "http 503", "http 504"];
    if IsCritical(folded) {
      var i :| 0 <= i < |markers| && Contains(folded, markers[i]);
      assert markers[i] in BREAKING_MARKERS;
    }
    if marker :| marker in BREAKING_MARKERS && Contains(folded, marker) {
      assert markers[0] in BREAKING_MARKERS;
      MarkerIsListed(markers, marker);
      var i :| 0 <= i < |markers| && markers[i] == marker;
    }
  }

  lemma MarkerIsListed(markers: seq<string>, marker: string)
    requires |markers| == 8 && marker in BREAKING_MARKERS
    requires markers[0] == "err_connection_refused" && markers[1] == "connection refused"
    requires markers[2] == "err_name_not_resolved" && markers[3] == "err_connection_timed_out"
    requires markers[4] == "http 500" && markers[5] == "http 502" && markers[6] == "http 503" && markers[7] == "http 504"
    ensures marker in markers
  {
  }

  lemma {:induction false} CriticalElements(errors: seq<string>, text: string)
    ensures text in CriticalAmong(errors) <==> exists raw :: raw in errors && Breaking(raw) && text == Strip(raw)
  {
    hide Strip, Lower, IsCritical, Contains;
    if errors != [] {
      var front, last := errors[..|errors| - 1], errors[|errors| - 1];
      assert errors == front + [last];
      CriticalElements(front, text);
      MarkersMean(Lower(Strip(last)));
      if raw :| raw in errors && Breaking(raw) && text == Strip(raw) {
        assert raw in front || raw == last;
      }
      if text in CriticalAmong(front) {
        var raw :| raw in front && Breaking(raw) && text == Strip(raw);
        assert raw in errors;
      }
    }
  }

  lemma ReportedElements(r: Receipt)
    ensures forall text :: text in CriticalErrors(r) <==> Reported(r, text)
    ensures CriticalErrors(r) == [] <==> forall text :: !Reported(r, text)
    ensures Distinct(CriticalErrors(r))
  {
    hide CriticalAmong, Breaking, Dedup;
    var errors := r.networkErrors + r.consoleErrors;
    DedupElements(CriticalAmong(errors));
    forall text
      ensures text in CriticalErrors(r) <==> Reported(r, text)
    {
      CriticalElements(errors, text);
    }
    if CriticalErrors(r) != [] {
      assert CriticalErrors(r)[0] in CriticalErrors(r);
    }
  }

  lemma {:induction false} NonBlankElements(texts: seq<string>, text: string)
    ensures text in NonBlank(texts) <==> exists raw :: raw in texts && text == Strip(raw) && text != ""
  {
    hide Strip;
    if texts != [] {
      var front, last := texts[..|texts| - 1], texts[|texts| - 1];
      assert texts == front + [last];
      NonBlankElements(front, text);
      if raw :| raw in texts && text == Strip(raw) && text != "" {
        assert raw in front || raw == last;
      }
    }
  }

  lemma CrashElements(r: Receipt)
    ensures forall text :: text in Dedup(NonBlank(r.pageErrors)) <==> Crashed(r, text)
    ensures Dedup(NonBlank(r.pageErrors)) == [] <==> forall text :: !Crashed(r, text)
  {
    hide NonBlank, Dedup;
    DedupElements(NonBlank(r.pageErrors));
    forall text
      ensures text in Dedup(NonBlank(r.pageErrors)) <==> Crashed(r, text)
    {
      NonBlankElements(r.pageErrors, text);
    }
    if Dedup(NonBlank(r.pageErrors)) != [] {
      assert Dedup(NonBlank(r.pageErrors))[0] in Dedup(NonBlank(r.pageErrors));
    }
  }

  // ---------------------------------------------------------------- one look at a page

  predicate Looks(tool: Tool) { tool == BrowserInspect || tool == BrowserAct }

  ghost predicate Broken(r: Receipt) { exists text :: Reported(r, text) }

  ghost predicate Defective(r: Receipt) { exists text :: Crashed(r, text) }

  lemma Classified(c: Contract, r: Receipt)
    ensures Classify(c, r) == if Broken(r) then (if Usable(c, r) then Degraded else PageState.Broken)
                              else if Defective(r) then PageState.Defective else Healthy
  {
    hide CriticalErrors, NonBlank, Reported, Crashed, Dedup;
    ReportedElements(r);
    CrashElements(r);
  }

  lemma JoinedElements(xs: seq<string>, ys: seq<string>)
    ensures forall text :: text in Dedup(xs + ys) <==> text in xs || text in ys
  {
    hide Dedup;
    DedupElements(xs + ys);
  }

  /**
   * What one look at a page leaves behind, in the terms of its report. Broken services are warnings when there is still
   * something to capture, and otherwise send the action back to its start; an error of the page itself asks for a
   * reload; only otherwise, or with warnings, does the page count as inspected.
   */
  lemma LookingLeaves(s: State, tool: Tool, args: Args, r: Receipt)
    requires Looks(tool)
    ensures var t := Observe(s, tool, args, r, true);
            var warned := Broken(r) && Usable(s.contract, r);
            && t == s.(runtime := t.runtime, browser := t.browser, failure := Failure("", None))
            && (t.browser.browserInspected <==> warned || (!Broken(r) && !Defective(r)))
            && (t.runtime.runtimeReady <==> s.runtime.runtimeReady && (Broken(r) ==> warned))
            && (t.browser.browserReloadRequired <==>
                  if Broken(r) then !warned && s.browser.browserReloadRequired else Defective(r))
            && (t.browser.actionPendingCapture <==>
                  s.browser.actionPendingCapture || (tool == BrowserAct && t.browser.browserInspected))
  {
    hide Classify, SeeUrl, Dedup, Reported, Crashed, CriticalErrors, NonBlank, Usable;
    Classified(s.contract, r);
    SeenFlags(AtSession(s.browser, r, s.browser.browserOpened || NotDenied(r)), r);
  }

  lemma SeenFlags(b: Browser, r: Receipt)
    ensures var seen := SeeTargets(SeeUrl(b, r), r);
            && seen.browserInspected == b.browserInspected && seen.browserReloadRequired == b.browserReloadRequired
            && seen.actionPendingCapture == b.actionPendingCapture && seen.pageDefects == b.pageDefects
            && seen.browserOpened == b.browserOpened && seen.browserSessionId == b.browserSessionId
  {
    hide Strip;
  }

  lemma ListsLeft(s: State, tool: Tool, args: Args, r: Receipt)
    requires Looks(tool)
    ensures var t, page := Observe(s, tool, args, r, true), Classify(s.contract, r);
            && t.runtime.runtimeBlockers == (if page.Broken? then CriticalErrors(r) else [])
            && t.runtime.degradedRuntimeWarnings
               == (if page.Degraded? then Dedup(s.runtime.degradedRuntimeWarnings + CriticalErrors(r))
                   else s.runtime.degradedRuntimeWarnings)
            && t.browser.pageDefects
               == (if page.Defective? then Dedup(s.browser.pageDefects + Dedup(NonBlank(r.pageErrors)))
                   else s.browser.pageDefects)
  {
    hide Classify, SeeUrl, SeeTargets, Dedup, CriticalErrors, NonBlank;
    SeenFlags(AtSession(s.browser, r, s.browser.browserOpened || NotDenied(r)), r);
  }

  /** And which texts it leaves: as blockers, as warnings added to the earlier ones, or as defects of the page. */
  lemma LookingLists(s: State, tool: Tool, args: Args, r: Receipt, text: string)
    requires Looks(tool)
    ensures var t := Observe(s, tool, args, r, true);
            var warned := Broken(r) && Usable(s.contract, r);
            && (text in t.runtime.runtimeBlockers <==> Reported(r, text) && !warned)
            && (text in t.runtime.degradedRuntimeWarnings <==>
                  text in s.runtime.degradedRuntimeWarnings || (warned && Reported(r, text)))
            && (text in t.browser.pageDefects <==>
                  text in s.browser.pageDefects || (!Broken(r) && Crashed(r, text)))
  {
    hide Observe, Classify, Dedup, Reported, Crashed, CriticalErrors, NonBlank, Usable;
    ListsLeft(s, tool, args, r);
    Classified(s.contract, r);
    ReportedElements(r);
    CrashElements(r);
    JoinedElements(s.runtime.degradedRuntimeWarnings, CriticalErrors(r));
    JoinedElements(s.browser.pageDefects, Dedup(NonBlank(r.pageErrors)));
    assert Broken(r) <==> CriticalErrors(r) != [];
  }

  // ---------------------------------------------------------------- warnings over whole runs

  /** A successful look at a page that is usable although it reports this broken service. */
  ghost predicate Warns(c: Contract, e: Event, text: string) {
    e.Call? && e.ok && Looks(e.tool) && Usable(c, e.receipt) && Reported(e.receipt, text)
  }

  /** Nothing else touches the warnings. */
  lemma OthersKeepWarnings(s: State, tool: Tool, args: Args, r: Receipt, ok: bool)
    requires !(ok && Looks(tool))
    ensures Observe(s, tool, args, r, ok).runtime.degradedRuntimeWarnings == s.runtime.degradedRuntimeWarnings
  {
    hide AddCapture, ReadProjectFile, ListedPaths, NoteInstall, ReviewImages, SeeUrl, SeeTargets, ServerDirectories,
      NormPath, Lower, MentionsRefusal, StartedUrl;
  }

  lemma OneEventWarns(base: set<Tool>, rs: RunState, e: Event, text: string)
    ensures Next(base, rs, e).coord.contract == rs.coord.contract
    ensures text in Next(base, rs, e).coord.runtime.degradedRuntimeWarnings
            <==> text in rs.coord.runtime.degradedRuntimeWarnings || Warns(rs.coord.contract, e, text)
  {
    hide Observe, Rewrite, Permitted, Reported, Usable;
    if e.Call? {
      var args := Rewrite(rs.coord, e.tool, e.raw);
      ContractIsFixed(rs.coord, e.tool, args, e.receipt, e.ok);
      if e.ok && Looks(e.tool) {
        LookingLists(rs.coord, e.tool, args, e.receipt, text);
      } else {
        OthersKeepWarnings(rs.coord, e.tool, args, e.receipt, e.ok);
      }
    }
  }

  /** In every sequence of events exactly what was warned of is remembered, and it stays remembered. */
  lemma {:induction false} WarningsAreRemembered(base: set<Tool>, rs: RunState, es: seq<Event>, text: string)
    ensures text in After(base, rs, es).coord.runtime.degradedRuntimeWarnings
            <==> text in rs.coord.runtime.degradedRuntimeWarnings || exists e :: e in es && Warns(rs.coord.contract, e, text)
    decreases |es|
  {
    hide Next, Warns;
    if es != [] {
      var next := Next(base, rs, es[0]);
      OneEventWarns(base, rs, es[0], text);
      WarningsAreRemembered(base, next, es[1..], text);
      if e :| e in es && Warns(rs.coord.contract, e, text) {
        assert e == es[0] || e in es[1..];
      }
    }
  }

  // The two parts are joined as in the note itself, of which proofs look only at both ends.
  const LIMITATION: string :=
    "L" + "imitation: an optional companion service was unavailable during capture; "
    + "only visibly complete, unaffected frontend states were selected" + "."

  lemma NoteIsTheLimitation(warnings: seq<string>)
    ensures LimitationNote(warnings) == if warnings == [] then "" else LIMITATION
  {
  }

  /**
   * Over every fresh run: whatever publication is asked for, once something is selected, its message owns up to the
   * limitation, after what the model wrote, if some usable page was looked at that reported a broken service; and if
   * none was, the message stays as the model wrote it.
   */
  lemma PublicationsOwnUp(base: set<Tool>, contract: Contract, es: seq<Event>, raw: Args)
    requires After(base, Begin(contract), es).coord.review.selectedPaths != []
    ensures var message := TextArg(Rewrite(After(base, Begin(contract), es).coord, PublishOutput, raw), Message);
            if exists e, text :: e in es && Warns(contract, e, text)
            then Contains(Strip(message), LIMITATION) && Strip(TextArg(raw, Message)) <= Strip(message)
            else message == TextArg(raw, Message)
  {
    hide After, Rewrite, Warns, Contains, Strip, LIMITATION, LimitationNote;
    var s := After(base, Begin(contract), es).coord;
    NoteIsTheLimitation(s.runtime.degradedRuntimeWarnings);
    if e, text :| e in es && Warns(contract, e, text) {
      WarningsAreRemembered(base, Begin(contract), es, text);
      PublicationCarriesLimitation(s, raw);
      RewritesPublication(s, raw);
    } else {
      if s.runtime.degradedRuntimeWarnings != [] {
        WarningsAreRemembered(base, Begin(contract), es, s.runtime.degradedRuntimeWarnings[0]);
      }
      UnwarnedMessage(s, raw);
    }
  }

  lemma RewritesPublication(s: State, raw: Args)
    ensures Rewrite(s, PublishOutput, raw) == RewritePublish(s, raw)
  {
  }

  lemma UnwarnedMessage(s: State, raw: Args)
    requires s.runtime.degradedRuntimeWarnings == []
    ensures TextArg(Rewrite(s, PublishOutput, raw), Message) == TextArg(raw, Message)
  {
    hide SuppliedPaths, ExpectedPaths, ExpectedAssets, Strip, Contains;
  }
}
