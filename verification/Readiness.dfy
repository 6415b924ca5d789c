/** From a start that the process manager reports ready to a browser that may open the page. */
module Readiness {
  import opened Text
  import opened Workflow
  import opened Completion
  import opened RewriteProofs

  predicate LoopbackUrl(text: string) { "http://127.0.0.1:" <= text || "http://localhost:" <= text }

  /** A readiness signal: how to tell that the process is up. */
  datatype Signal = Signal(kind: string, value: string)

  /** The signal a call declares, as the process manager reads it. */
  function Declared(args: Args): Signal {
    Signal(Fold(OrElse(TextArg(args, ReadinessType), "none")), Strip(TextArg(args, ReadinessValue)))
  }

  /** The signals the process manager waits for; it refuses all others. */
  predicate Usable(signal: Signal) {
    || (signal.kind == "port" && AllDigits(signal.value) && 1 <= NumberOf(signal.value) <= 65535)
    || (signal.kind == "url" && LoopbackUrl(signal.value))
    || (signal.kind == "log" && signal.value != "")
  }

  /** A declared port or URL gives way to a loopback URL found in the process's own log. */
  function Effective(declared: Signal, discovered: Option<string>): Signal {
    if declared.kind in {"url", "port"} && discovered.Some? then Signal("url", discovered.value) else declared
  }

  function Address(signal: Signal): string {
    if signal.kind == "url" then signal.value
    else if signal.kind == "port" then "http://127.0.0.1:" + signal.value
    else ""
  }

  /** What start_process returns for these arguments; `discovered` is a loopback URL from the log that answers. */
  predicate StartReceipt(args: Args, discovered: Option<string>, r: Receipt) {
    var signal := Effective(Declared(args), discovered);
    && Usable(Declared(args)) && (discovered.Some? ==> LoopbackUrl(discovered.value))
    && r.readinessType == signal.kind && r.readinessValue == signal.value && r.readinessUrl == Address(signal)
  }

  lemma LoopbackIsVisible(url: string)
    requires LoopbackUrl(url)
    ensures NormUrl(url) != ""
  {
    assert url[0] == 'h';
    assert TrimLeft(url, IsSpace) == url;
    TrimRightKeepsFirst(url, IsSpace);
    TrimRightKeepsFirst(Strip(url), IsSlash);
  }

  /** For a browser task an accepted call declares a port or a URL, so its receipt carries a loopback address. */
  lemma AcceptedStartHasAddress(s: State, args: Args, discovered: Option<string>, r: Receipt)
    requires Active(s) && s.contract.requireBrowser
    requires Validate(s, StartProcess, args) == Accepted && StartReceipt(args, discovered, r)
    ensures LoopbackUrl(r.readinessUrl)
  {
    hide NormDirectory, BrowserDirectories, Fold, Strip, NumberOf;
  }

  /**
   * The address never decides: after a receipt of start_process for an accepted call the runtime counts as ready exactly
   * if the process does, and then, with no browser open yet, every repaired browser_open is accepted at that address.
   */
  lemma ReadyStartCanBeOpened(s: State, args: Args, discovered: Option<string>, r: Receipt, raw: Args)
    requires Active(s) && Validate(s, StartProcess, args) == Accepted && StartReceipt(args, discovered, r)
    ensures var t := Observe(s, StartProcess, args, r, true);
            && (t.runtime.runtimeReady <==> ReadyReceipt(r))
            && (s.contract.requireBrowser && !s.browser.browserOpened ==> t.runtime.runtimeUrl == r.readinessUrl)
            && (s.contract.requireBrowser && !s.browser.browserOpened && ReadyReceipt(r) ==>
                  && LoopbackUrl(t.runtime.runtimeUrl)
                  && Validate(t, BrowserOpen, Rewrite(t, BrowserOpen, raw)) == Accepted)
  {
    hide StartReceipt, NoteProcess, Validate, Rewrite, LoopbackUrl;
    var t := Observe(s, StartProcess, args, r, true);
    if s.contract.requireBrowser {
      AcceptedStartHasAddress(s, args, discovered, r);
      LoopbackIsNotEmpty(r.readinessUrl);
      if !s.browser.browserOpened {
        LoopbackIsVisible(t.runtime.runtimeUrl);
        RewrittenOpenVerdict(t, raw);
      }
    }
  }

  lemma LoopbackIsNotEmpty(url: string)
    requires LoopbackUrl(url)
    ensures url != ""
  {
  }
}
