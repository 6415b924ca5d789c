/** Which payloads the route parser accepts, and what the decision then says, in the terms of the payload. */
module RouteMeanings {

  import opened Text
  import opened TaskDemand
  import opened Routes
  import opened RouteRoundTrip
  import opened RouteTransformations
  import opened OutcomeRepair

  // ---------------------------------------------------------------- words

  predicate Blank(raw: Option<string>) { raw.None? || Strip(raw.value) == "" }

  /** The text is one of these words, whatever its case and the blanks around it. */
  predicate Says(raw: Option<string>, words: set<string>) { raw.Some? && Lower(Strip(raw.value)) in words }

  predicate SaysRoute(raw: Option<string>, r: Route) {
    Says(raw, match r case Chat => {"chat"} case Action => {"action"} case Goal => {"goal"})
  }

  /** The outcomes a route can have, and the one it has when none is named. */
  predicate SaysOutcome(raw: Option<string>, r: Route, o: Outcome) {
    match r
    case Chat =>
      || (o == Conversation && (Blank(raw) || Says(raw, {"conversation"})))
      || (o == Explanation && Says(raw, {"explanation"}))
    case Action => o == WorkspaceOperation && (Blank(raw) || Says(raw, {"workspace_operation"}))
    case Goal =>
      || (o == DurableProject && (Blank(raw) || Says(raw, {"durable_project"})))
      || (o == RunnableProduct && Says(raw, {"runnable_product"}))
      || (o == WorkspaceOperation && Says(raw, {"workspace_operation"}))
  }

  lemma BlankTokens(raw: Option<string>)
    ensures Blank(raw) <==> TokenOf(raw) == ""
    ensures forall words: set<string> :: "" !in words ==> (Says(raw, words) <==> TokenOf(raw) in words)
  {
    hide Strip;
  }

  lemma RoutesMean(raw: Option<string>, r: Route)
    ensures ParseRoute(raw) == Ok(r) <==> SaysRoute(raw, r)
    ensures ParseRoute(raw).Ok? <==> exists q :: SaysRoute(raw, q)
  {
    hide TokenOf, Blank;
    BlankTokens(raw);
    if ParseRoute(raw).Ok? {
      assert SaysRoute(raw, ParseRoute(raw).value);
    }
  }

  lemma OutcomesMean(raw: Option<string>, r: Route, o: Outcome)
    ensures ParseOutcome(raw, r) == Ok(o) <==> SaysOutcome(raw, r, o)
  {
    hide TokenOf, Blank;
    BlankTokens(raw);
  }

  predicate SaysFlag(raw: RawFlag, missing: bool, flag: bool) {
    match raw
    case FlagMissing => flag == missing
    case Truth(truth) => flag == truth
    case Word(word) => Says(Some(word), if flag then {"true", "yes", "1"} else {"false", "no", "0"})
    case FlagOther => false
  }

  lemma FlagsMean(raw: RawFlag, missing: bool, flag: bool)
    ensures ParseFlag(raw, missing) == Ok(flag) <==> SaysFlag(raw, missing, flag)
  {
    hide Strip, Lower;
  }

  // ---------------------------------------------------------------- effects

  /** The spellings of an effect. */
  function Spellings(e: Effect): set<string> {
    match e
    case READ => {"read", "read_workspace", "read_file", "list_files", "grep", "inspect_images"}
    case WRITE => {"write", "write_workspace", "write_file", "edit_file", "apply_patch", "materialize_artifact"}
    case RUN => {"run", "run_command", "execute_shell", "run_shell", "shell", "run_bash", "start_process"}
    case INSTALL => {"install", "install_dependency", "install_dependencies"}
    case PREVIEW =>
      {"preview", "browser_open", "browser_inspect", "browser_act", "browser_screenshot", "browser_close",
       "publish_output", "preview_or_open", "open", "preview_html", "inspect_preview"}
    case EXTERNAL => {"external_side_effect"}
  }

  predicate Spells(name: string, e: Effect) { Says(Some(name), Spellings(e)) }

  predicate SpellsNothing(name: string) {
    Blank(Some(name)) || Says(Some(name), {"none", "no_effect", "no effects", "no requested effects"})
  }

  lemma ReadSpellings(t: string)
    requires t in Spellings(READ)
    ensures NamedEffect(t) == Some(READ)
  {
  }

  lemma WriteSpellings(t: string)
    requires t in Spellings(WRITE)
    ensures NamedEffect(t) == Some(WRITE)
  {
  }

  lemma RunSpellings(t: string)
    requires t in Spellings(RUN)
    ensures NamedEffect(t) == Some(RUN)
  {
  }

  lemma InstallSpellings(t: string)
    requires t in Spellings(INSTALL)
    ensures NamedEffect(t) == Some(INSTALL)
  {
  }

  lemma PreviewsAreNoFiles(t: string)
    requires t in Spellings(PREVIEW)
    ensures t !in ["read_workspace", "read_file", "list_files", "grep", "inspect_images"]
    ensures t !in ["write_workspace", "write_file", "edit_file", "apply_patch", "materialize_artifact"]
  {
  }

  lemma PreviewsAreNoCommands(t: string)
    requires t in Spellings(PREVIEW)
    ensures t !in ["run_command", "execute_shell", "run_shell", "shell", "run_bash", "start_process"]
    ensures t !in ["install_dependency", "install_dependencies"]
  {
  }

  lemma PreviewsAreNoNames(t: string)
    requires t in Spellings(PREVIEW)
    ensures t == Name(PREVIEW)
            || (AliasedEffect(t) == Some(PREVIEW) && forall e :: Name(e) != t)
  {
    PreviewsAreNoFiles(t);
    PreviewsAreNoCommands(t);
  }

  lemma PreviewSpellings(t: string)
    requires t in Spellings(PREVIEW)
    ensures NamedEffect(t) == Some(PREVIEW)
  {
    hide Spellings, AliasedEffect, Name;
    PreviewsAreNoNames(t);
    NamesParse(PREVIEW);
  }

  lemma ExternalSpellings(t: string)
    requires t in Spellings(EXTERNAL)
    ensures NamedEffect(t) == Some(EXTERNAL)
  {
  }

  lemma SpellingsAreNamed(t: string, e: Effect)
    requires t in Spellings(e)
    ensures NamedEffect(t) == Some(e)
  {
    hide Spellings, NamedEffect;
    match e
    case READ => ReadSpellings(t);
    case WRITE => WriteSpellings(t);
    case RUN => RunSpellings(t);
    case INSTALL => InstallSpellings(t);
    case PREVIEW => PreviewSpellings(t);
    case EXTERNAL => ExternalSpellings(t);
  }

  lemma NamedIsSpelled(t: string)
    requires NamedEffect(t).Some?
    ensures t in Spellings(NamedEffect(t).value)
  {
  }

  lemma EffectNamesMean(name: string, e: Effect)
    ensures NamedEffect(Token(name)) == Some(e) <==> Spells(name, e)
  {
    hide Spellings, NamedEffect;
    var t := Token(name);
    if t in Spellings(e) {
      SpellingsAreNamed(t, e);
    }
    if NamedEffect(t).Some? {
      NamedIsSpelled(t);
    }
  }

  lemma SpelledNothing(name: string)
    ensures NamesNothing(Token(name)) <==> SpellsNothing(name)
  {
    hide Strip;
    assert Lower(Strip(name)) == "" <==> Strip(name) == "";
    hide Lower;
  }

  /** The payload names this effect and does not switch it off. */
  ghost predicate Asks(raw: RawEffects, name: string) {
    match raw
    case EffectsMissing => false
    case Switches(switches) =>
      exists i :: 0 <= i < |switches| && switches[i].0 == name
                  && (switches[i].1 == On(true) || (switches[i].1.Listed? && switches[i].1.spans > 0))
    case Names(names) => name in names
    case OneName(one) => name == one
    case EffectsOther => false
  }

  ghost predicate WellFormed(raw: RawEffects) {
    !raw.EffectsOther? && (raw.Switches? ==> forall i :: 0 <= i < |raw.switches| ==> !raw.switches[i].1.BadSwitch?)
  }

  /** Everything it asks for is an effect, or a spelling of none. */
  ghost predicate Readable(raw: RawEffects) {
    WellFormed(raw) && forall name :: Asks(raw, name) ==> SpellsNothing(name) || exists e :: Spells(name, e)
  }

  ghost predicate AsksFor(raw: RawEffects, e: Effect) {
    exists name :: Asks(raw, name) && !SpellsNothing(name) && Spells(name, e)
  }

  lemma {:induction false} SwitchesMean(switches: seq<(string, Switch)>)
    ensures EnabledNames(switches).Ok? <==> WellFormed(Switches(switches))
    ensures EnabledNames(switches).Ok? ==>
              forall name :: name in EnabledNames(switches).value <==> Asks(Switches(switches), name)
  {
    if switches != [] {
      var front, last := switches[..|switches| - 1], switches[|switches| - 1];
      SwitchesMean(front);
      assert switches == front + [last];
      assert WellFormed(Switches(switches)) <==> WellFormed(Switches(front)) && !last.1.BadSwitch?;
      if EnabledNames(switches).Ok? {
        forall name
          ensures name in EnabledNames(switches).value <==> Asks(Switches(switches), name)
        {
          AskedByLast(front, last, name);
        }
      }
    }
  }

  lemma AskedByLast(front: seq<(string, Switch)>, last: (string, Switch), name: string)
    ensures Asks(Switches(front + [last]), name) <==>
              || Asks(Switches(front), name)
              || (last.0 == name && (last.1 == On(true) || (last.1.Listed? && last.1.spans > 0)))
  {
    var all := front + [last];
    assert all[|front|] == last;
    if i :| 0 <= i < |front| && front[i].0 == name
            && (front[i].1 == On(true) || (front[i].1.Listed? && front[i].1.spans > 0)) {
      assert all[i] == front[i];
    }
  }

  lemma NamesMean(raw: RawEffects)
    ensures EffectNames(raw).Ok? <==> WellFormed(raw)
    ensures EffectNames(raw).Ok? ==> forall name :: name in EffectNames(raw).value <==> Asks(raw, name)
  {
    hide EnabledNames;
    if raw.Switches? {
      SwitchesMean(raw.switches);
    }
  }

  lemma {:induction false} ParsedNamesMean(names: seq<string>)
    ensures ParseNames(names).Ok? <==> forall name :: name in names ==> SpellsNothing(name) || exists e :: Spells(name, e)
    ensures ParseNames(names).Ok? ==>
              forall e :: e in ParseNames(names).value
                          <==> exists name :: name in names && !SpellsNothing(name) && Spells(name, e)
  {
    hide Token, NamedEffect, NamesNothing, SpellsNothing, Spells;
    if names != [] {
      var front, last := names[..|names| - 1], names[|names| - 1];
      ParsedNamesMean(front);
      assert names == front + [last];
      OneNameMeans(last);
    }
  }

  lemma OneNameMeans(name: string)
    ensures NamesNothing(Token(name)) <==> SpellsNothing(name)
    ensures NamedEffect(Token(name)).Some? <==> exists e :: Spells(name, e)
    ensures forall e :: NamedEffect(Token(name)) == Some(e) <==> Spells(name, e)
  {
    hide Token, NamedEffect, NamesNothing, SpellsNothing, Spells;
    SpelledNothing(name);
    forall e
      ensures NamedEffect(Token(name)) == Some(e) <==> Spells(name, e)
    {
      EffectNamesMean(name, e);
    }
    if NamedEffect(Token(name)).Some? {
      assert Spells(name, NamedEffect(Token(name)).value);
    }
  }

  /** Effects are read exactly if every name is a spelling of one or of none, and they are the ones spelled. */
  lemma EffectsMean(raw: RawEffects)
    ensures ParseEffects(raw).Ok? <==> Readable(raw)
    ensures ParseEffects(raw).Ok? ==>
              && Distinct(ParseEffects(raw).value)
              && forall e :: e in ParseEffects(raw).value <==> AsksFor(raw, e)
  {
    hide EffectNames, ParseNames, Dedup, SpellsNothing, Spells, Asks, WellFormed;
    NamesMean(raw);
    if EffectNames(raw).Ok? {
      var names := EffectNames(raw).value;
      ParsedNamesMean(names);
      if ParseNames(names).Ok? {
        DedupElements(ParseNames(names).value);
      }
    }
  }

  // ---------------------------------------------------------------- authority

  /** The payload quotes this text for the effect. */
  ghost predicate Quotes(raw: RawSpans, e: Effect, text: string) {
    && raw.SpansObject? && Name(e) in raw.spans && text != ""
    && match raw.spans[Name(e)]
       case One(one) => text == one
       case Many(texts) => text in texts
       case _ => false
  }

  /** What it gives for the effect is a text, a list of texts, or nothing. */
  ghost predicate QuotesWell(raw: RawSpans, e: Effect) {
    raw.SpansObject? && Name(e) in raw.spans ==> !raw.spans[Name(e)].Null? && !raw.spans[Name(e)].Malformed?
  }

  ghost predicate HasAuthority(raw: RawSpans, e: Effect) { exists text :: Quotes(raw, e, text) }

  /** Authority for one effect: only words of the user, and some unless it reads or, being external, is dropped. */
  ghost predicate MayHave(raw: RawSpans, e: Effect, input: string) {
    && QuotesWell(raw, e) && (e in {WRITE, RUN, INSTALL, PREVIEW} ==> HasAuthority(raw, e))
    && forall text :: Quotes(raw, e, text) ==> Contains(input, text)
  }

  /** An effect that is asked for is granted, but an external one only with authority. */
  ghost predicate Granted(effects: RawEffects, spans: RawSpans, e: Effect) {
    AsksFor(effects, e) && (e == EXTERNAL ==> HasAuthority(spans, e))
  }

  lemma {:induction false} NonEmptyElements(texts: seq<string>)
    ensures forall text :: text in NonEmpty(texts) <==> text in texts && text != ""
  {
    if texts != [] {
      var front, last := texts[..|texts| - 1], texts[|texts| - 1];
      NonEmptyElements(front);
      assert texts == front + [last];
    }
  }

  function SpansOf(raw: RawSpans): map<string, RawStrings> { if raw.SpansObject? then raw.spans else map[] }

  lemma SpansMean(raw: RawSpans, e: Effect)
    ensures SpansFor(SpansOf(raw), e).Ok? <==> QuotesWell(raw, e)
    ensures QuotesWell(raw, e) ==>
              && (forall text :: text in SpansFor(SpansOf(raw), e).value <==> Quotes(raw, e, text))
              && (SpansFor(SpansOf(raw), e).value != [] <==> HasAuthority(raw, e))
  {
    hide NonEmpty, Name;
    if raw.SpansObject? && Name(e) in raw.spans {
      match raw.spans[Name(e)]
      case One(text) => NonEmptyElements([text]);
      case Many(texts) => NonEmptyElements(texts);
      case _ =>
    }
    if QuotesWell(raw, e) && SpansFor(SpansOf(raw), e).value != [] {
      var spans := SpansFor(SpansOf(raw), e).value;
      assert spans[0] in spans;
      assert Quotes(raw, e, spans[0]);
    }
  }

  lemma VerbatimMeans(spans: seq<string>, input: string)
    ensures Verbatim(spans, input) <==> forall text :: text in spans ==> Contains(input, text)
  {
    hide Contains;
    if forall text :: text in spans ==> Contains(input, text) {
      forall i | 0 <= i < |spans|
        ensures Contains(input, spans[i])
      {
        assert spans[i] in spans;
      }
    }
  }

  lemma GrantMeans(sofar: Authority, e: Effect, raw: RawSpans, input: string)
    ensures AuthorizeOne(sofar, e, SpansOf(raw), input).Ok? <==> MayHave(raw, e, input)
    ensures MayHave(raw, e, input) ==>
              AuthorizeOne(sofar, e, SpansOf(raw), input).value
              == if e == EXTERNAL && !HasAuthority(raw, e) then sofar
                 else Authority(sofar.effects + [e], sofar.spans[Name(e) := SpansFor(SpansOf(raw), e).value])
  {
    hide SpansFor, Name, Verbatim, QuotesWell, Quotes, Contains, SpansOf;
    SpansMean(raw, e);
    if QuotesWell(raw, e) {
      VerbatimMeans(SpansFor(SpansOf(raw), e).value, input);
    }
  }

  /** The first so many effects can be granted exactly if each of them can. */
  lemma {:induction false} GrantsMean(effects: seq<Effect>, raw: RawSpans, input: string)
    requires Distinct(effects)
    ensures var a := Authorize(effects, SpansOf(raw), input);
            && (a.Ok? <==> forall e :: e in effects ==> MayHave(raw, e, input))
            && (a.Ok? ==>
                  forall e :: e in a.value.effects <==> e in effects && (e == EXTERNAL ==> HasAuthority(raw, e)))
            && (a.Ok? ==> forall e :: e in a.value.effects ==>
                                        Name(e) in a.value.spans
                                        && a.value.spans[Name(e)] == SpansFor(SpansOf(raw), e).value)
    decreases |effects|
  {
    hide AuthorizeOne, SpansFor, SpansOf, MayHave, HasAuthority, Distinct, Name;
    if effects != [] {
      var front, last := effects[..|effects| - 1], effects[|effects| - 1];
      DistinctFront(effects);
      GrantsMean(front, raw, input);
      assert effects == front + [last];
      if Authorize(front, SpansOf(raw), input).Ok? {
        GrantMeans(Authorize(front, SpansOf(raw), input).value, last, raw, input);
        forall e | e in front
          ensures Name(e) != Name(last)
        {
          NamesAreDistinct(e, last);
        }
      }
    }
  }

  /** The quotations kept for an effect are the ones the payload gives. */
  ghost predicate Quoted(kept: map<string, seq<string>>, raw: RawSpans, e: Effect) {
    Name(e) in kept && forall text :: text in kept[Name(e)] <==> Quotes(raw, e, text)
  }

  /** Authority is given exactly if every effect asked for may have it, and every quotation of it is kept. */
  lemma AuthorityMeans(effects: RawEffects, spans: RawSpans, input: string)
    ensures var a := ParseAuthority(effects, spans, input);
            && (a.Ok? <==> Readable(effects) && !spans.SpansOther?
                           && forall e :: AsksFor(effects, e) ==> MayHave(spans, e, input))
            && (a.Ok? ==> forall e :: e in a.value.effects <==> Granted(effects, spans, e))
            && (a.Ok? ==> forall e :: e in a.value.effects ==> Quoted(a.value.spans, spans, e))
  {
    hide ParseEffects, Authorize, SpansFor, MayHave, HasAuthority, Readable, AsksFor, Name, Quotes, Distinct;
    EffectsMean(effects);
    if ParseEffects(effects).Ok? && !spans.SpansOther? {
      GrantsMean(ParseEffects(effects).value, spans, input);
      forall e | MayHave(spans, e, input)
        ensures SpansFor(SpansOf(spans), e).Ok?
        ensures forall text :: text in SpansFor(SpansOf(spans), e).value <==> Quotes(spans, e, text)
      {
        QuotedWell(spans, e, input);
        SpansMean(spans, e);
      }
    }
  }

  lemma QuotedWell(raw: RawSpans, e: Effect, input: string)
    ensures MayHave(raw, e, input) ==> QuotesWell(raw, e)
  {
  }

  // ---------------------------------------------------------------- titles

  lemma LeadingBlank(c: char, b: string)
    requires IsSpace(c)
    ensures Words([c] + b) == Words(b)
  {
    assert ([c] + b)[1..] == b;
  }

  lemma WordBefore(w: string, tail: string, c: char, b: string)
    requires IsWord(w) && IsSpace(c) && (tail == "" || IsSpace(tail[0]))
    requires Words(tail + [c] + b) == Words(tail) + Words(b)
    ensures Words(w + tail + [c] + b) == Words(w + tail) + Words(b)
  {
    hide Words, IsWord, IsSpace;
    var rest := tail + [c] + b;
    assert w + tail + [c] + b == w + rest;
    assert rest[0] == if tail == "" then c else tail[0];
    WordsOfJoin(w, tail);
    WordsOfJoin(w, rest);
  }

  lemma {:induction false} WordsOfParts(a: string, c: char, b: string)
    requires IsSpace(c)
    ensures Words(a + [c] + b) == Words(a) + Words(b)
  {
    if a == "" {
      LeadingBlank(c, b);
      assert a + [c] + b == [c] + b;
    } else if IsSpace(a[0]) {
      assert (a + [c] + b)[1..] == a[1..] + [c] + b;
      WordsOfParts(a[1..], c, b);
    } else {
      var n := WordEnd(a);
      assert n > 0;
      WordsOfParts(a[n..], c, b);
      hide Words, WordEnd;
      assert a == a[..n] + a[n..];
      WordBefore(a[..n], a[n..], c, b);
    }
  }

  /** Words are what stands between blanks. */
  lemma WordsMean(a: string, c: char, b: string)
    ensures Words("") == [] && (IsWord(a) ==> Words(a) == [a])
    ensures IsSpace(c) ==> Words(a + [c] + b) == Words(a) + Words(b)
  {
    if IsWord(a) {
      assert a + "" == a;
      WordsOfJoin(a, "");
    }
    if IsSpace(c) {
      WordsOfParts(a, c, b);
    }
  }

  lemma {:induction false} FewerWords(s: string, n: nat)
    requires n <= |s|
    ensures |Words(s[..n])| <= |Words(s)|
  {
    if n == 0 {
      assert s[..n] == "";
    } else if IsSpace(s[0]) {
      FewerWords(s[1..], n - 1);
      assert s[..n][1..] == s[1..][..n - 1];
    } else {
      var end := WordEnd(s);
      assert end > 0;
      if n <= end {
        assert IsWord(s[..n]);
        WordsMean(s[..n], ' ', "");
      } else {
        FewerWords(s[end..], n - end);
        var w, rest := s[..end], s[end..][..n - end];
        assert IsWord(w) && Words(s) == [w] + Words(s[end..]);
        hide Words, WordEnd, IsWord;
        assert s[..n] == w + rest && rest[0] == s[end];
        WordsOfJoin(w, rest);
      }
    }
  }

  /** The first ten words with single blanks between them, cut after eighty characters. */
  ghost predicate Shortened(interpretation: string, title: string) {
    var ws := Words(interpretation);
    var first := Join(if |ws| <= 10 then ws else ws[..10], " ");
    title <= first && |title| <= 80 && (|title| < 80 ==> title == first)
  }

  lemma DefaultTitleMeans(interpretation: string, title: string)
    ensures Shortened(interpretation, title) <==> title == DefaultTitle(interpretation)
    ensures Concise(DefaultTitle(interpretation))
  {
    hide Words, Join;
    var ws := Words(interpretation);
    WordsAreWords(interpretation);
    var first := if |ws| <= 10 then ws else ws[..10];
    SplitOfJoin(first);
    var t := Join(first, " ");
    if |t| > 80 {
      FewerWords(t, 80);
    }
  }

  /** A title is what the payload says, with single blanks, or taken from the interpretation. */
  ghost predicate SaysTitle(raw: Option<string>, interpretation: string, title: string) {
    if Blank(raw) then Shortened(interpretation, title)
    else title == JoinWords(raw.value) && |title| <= 80 && |Words(raw.value)| <= 10
  }

  /** Titles are refused only if the payload's own one is too long. */
  lemma TitlesMean(raw: Option<string>, interpretation: string, title: string)
    ensures ParseTitle(raw, interpretation) == Ok(title) <==> SaysTitle(raw, interpretation, title)
    ensures ParseTitle(raw, interpretation).Ok? <==>
              Blank(raw) || (|JoinWords(raw.value)| <= 80 && |Words(raw.value)| <= 10)
  {
    hide Words, Join, Strip, DefaultTitle, Shortened;
    DefaultTitleMeans(interpretation, title);
    EmptyJoin();
    if raw.Some? {
      SomeWord(raw.value);
      WordsAreWords(raw.value);
      SplitOfJoin(Words(raw.value));
      if Words(raw.value) != [] {
        JoinStartsWithWord(Words(raw.value));
      } else {
        NothingJoined(" ");
      }
    }
  }

  // ---------------------------------------------------------------- uncertainty

  lemma RespacedMeans(t: string)
    ensures |Respaced(t)| == |t| && '_' !in Respaced(t) && '-' !in Respaced(t)
    ensures forall i :: 0 <= i < |t| ==> Respaced(t)[i] == if t[i] in {'_', '-'} then ' ' else t[i]
  {
  }

  lemma {:induction false} WordsKeepChars(s: string, c: char)
    requires c in JoinWords(s)
    ensures c == ' ' || c in s
  {
    JoinedChars(Words(s), c);
    if c != ' ' {
      var i :| 0 <= i < |Words(s)| && c in Words(s)[i];
      CharsOfWords(s, i, c);
    }
  }

  lemma {:induction false} JoinedChars(ws: seq<string>, c: char)
    requires c in Join(ws, " ")
    ensures c == ' ' || exists i :: 0 <= i < |ws| && c in ws[i]
  {
    if |ws| > 1 && c !in ws[0] && c != ' ' {
      assert c in Join(ws[1..], " ");
      JoinedChars(ws[1..], c);
      var i :| 0 <= i < |ws[1..]| && c in ws[1..][i];
      assert ws[i + 1] == ws[1..][i];
    } else if |ws| > 0 && c in ws[0] {
      assert c in ws[0];
    }
  }

  lemma {:induction false} CharsOfWords(s: string, i: nat, c: char)
    requires i < |Words(s)| && c in Words(s)[i]
    ensures c in s
  {
    if IsSpace(s[0]) {
      CharsOfWords(s[1..], i, c);
      assert c in s[1..];
    } else {
      var n := WordEnd(s);
      if i > 0 {
        CharsOfWords(s[n..], i - 1, c);
        assert c in s[n..];
      } else {
        assert c in s[..n];
      }
    }
  }

  /** What is said with single blanks for every run of blanks, underscores and hyphens. */
  function Spoken(raw: Option<string>): string {
    if raw.None? || raw.value == "" then "clear" else JoinWords(Respaced(Lower(Strip(raw.value))))
  }

  predicate SaysUncertainty(raw: Option<string>, u: Uncertainty) {
    match u
    case Clear => Spoken(raw) in {"clear", "none", "no", "low", "certain", "resolved", "unambiguous"}
    case ClarificationNeeded =>
      Spoken(raw) in {"clarification needed", "needs clarification", "unclear", "ambiguous", "high"}
  }

  lemma UnderscoredMeans(t: string)
    requires '_' !in t
    ensures Underscored(t) == "clear" <==> t == "clear"
    ensures Underscored(t) == "clarification_needed" <==> t == "clarification needed"
  {
    if Underscored(t) == "clear" {
      assert |t| == 5 && forall i :: 0 <= i < 5 ==> t[i] == "clear"[i];
    }
    if Underscored(t) == "clarification_needed" {
      var needed := "clarification needed";
      assert |t| == |needed| && Underscored(needed) == Underscored(t);
      forall i | 0 <= i < |t|
        ensures t[i] == needed[i]
      {
        assert t[i] in t && '_' !in needed && needed[i] in needed;
        assert Underscored(t)[i] == Underscored(needed)[i];
      }
    }
    assert Underscored("clarification needed") == "clarification_needed";
  }

  lemma UncertaintiesMean(raw: Option<string>, u: Uncertainty)
    ensures ParseUncertainty(raw) == Ok(u) <==> SaysUncertainty(raw, u)
  {
    hide Strip, Lower, Respaced, JoinWords, Underscored;
    ClearRespaced();
    var t := Spoken(raw);
    if '_' in t {
      UnderscoresAreGone(raw);
    } else {
      UnderscoredMeans(t);
    }
  }

  lemma UnderscoresAreGone(raw: Option<string>)
    ensures '_' !in Spoken(raw)
  {
    hide Strip, Lower, Respaced, JoinWords;
    if '_' in Spoken(raw) && raw.Some? && raw.value != "" {
      var t := Respaced(Lower(Strip(raw.value)));
      WordsKeepChars(t, '_');
      RespacedMeans(Lower(Strip(raw.value)));
    }
  }

  // ---------------------------------------------------------------- demand

  predicate SaysLevel(raw: RawLevel, level: int) {
    (raw.LevelMissing? && level == 4) || (raw == LevelNumber(level) && 1 <= level <= 4)
  }

  predicate SaysCount(raw: RawCount, missing: int, count: int) {
    (raw.CountMissing? && count == missing) || (raw == CountNumber(count) && count >= 1)
  }

  predicate Tells(text: string) { Strip(text) != "" }

  /** The texts of the payload that are not blank, stripped, in their order. */
  ghost predicate SaysTexts(raw: RawStrings, texts: seq<string>) {
    match raw
    case Absent => texts == []
    case One(text) => texts == if Strip(text) == "" then [] else [Strip(text)]
    case Many(all) => Kept(texts, all, Tells, Strip)
    case _ => false
  }

  lemma {:induction false} CleanKeeps(texts: seq<string>)
    ensures Kept(Clean(texts), texts, Tells, Strip)
  {
    hide Kept, Strip;
    if texts == [] {
      NothingKept(Tells, Strip);
    } else {
      var front, last := texts[..|texts| - 1], texts[|texts| - 1];
      CleanKeeps(front);
      KeptGrows(Clean(front), front, last, Tells, Strip);
      assert texts == front + [last];
      assert Clean(texts) == if Tells(last) then Clean(front) + [Strip(last)] else Clean(front);
    }
  }

  lemma OneClean(text: string)
    ensures Clean([text]) == if Strip(text) == "" then [] else [Strip(text)]
  {
    hide Strip;
    assert [text][..0] == [];
    assert Clean([]) == [];
  }

  lemma StringsMean(raw: RawStrings, texts: seq<string>)
    ensures ParseStrings(raw) == Ok(texts) <==> SaysTexts(raw, texts)
  {
    hide Kept, Clean, Strip;
    match raw
    case One(text) => OneClean(text);
    case Many(all) =>
      CleanKeeps(all);
      if SaysTexts(raw, texts) {
        KeptOnce(texts, Clean(all), all, Tells, Strip);
      }
    case _ =>
  }

  predicate SaysLevels(raw: Levels<RawLevel>, l: Levels<int>) {
    && SaysLevel(raw.reasoning, l.reasoning) && SaysLevel(raw.implementation, l.implementation)
    && SaysLevel(raw.contextBreadth, l.contextBreadth) && SaysLevel(raw.coordination, l.coordination)
    && SaysLevel(raw.verification, l.verification) && SaysLevel(raw.visualRuntime, l.visualRuntime)
  }

  /** Six levels from one to four, the highest for a missing one; a count, a flag, and at least one reason. */
  ghost predicate SaysDemand(p: DemandPayload, d: Demand) {
    && SaysLevels(p.levels, d.levels)
    && SaysCount(p.componentCount, 1, d.componentCount) && SaysFlag(p.parallel, false, d.parallel)
    && SaysTexts(p.rationale, d.rationale) && d.rationale != []
  }

  lemma DemandsMean(p: DemandPayload, d: Demand)
    ensures ParseDemand(p) == Ok(d) <==> SaysDemand(p, d)
  {
    hide ParseFlag, SaysFlag, ParseStrings, SaysTexts, ParseLevels, SaysLevels;
    FlagsMean(p.parallel, false, d.parallel);
    StringsMean(p.rationale, d.rationale);
    LevelsMean(p.levels, d.levels);
  }

  lemma LevelsMean(raw: Levels<RawLevel>, l: Levels<int>)
    ensures ParseLevels(raw) == Ok(l) <==> SaysLevels(raw, l)
  {
    OneLevelMeans(raw.reasoning, l.reasoning);
    OneLevelMeans(raw.implementation, l.implementation);
    OneLevelMeans(raw.contextBreadth, l.contextBreadth);
    OneLevelMeans(raw.coordination, l.coordination);
    OneLevelMeans(raw.verification, l.verification);
    OneLevelMeans(raw.visualRuntime, l.visualRuntime);
    hide ParseLevel, SaysLevel;
  }

  lemma OneLevelMeans(raw: RawLevel, level: int)
    ensures ParseLevel(raw) == Ok(level) <==> SaysLevel(raw, level)
  {
  }

  /**
   * The demand projected from a number of components: levels rise with two, three and five of them, parallel work is
   * coordinated at level three or more, and something is always given as a reason.
   */
  ghost predicate Projects(count: int, parallel: bool, reasons: seq<string>, d: Demand) {
    var level := d.levels.reasoning;
    && 1 <= level <= 4 && (level > 1 <==> count >= 2) && (level > 2 <==> count >= 3) && (level > 3 <==> count >= 5)
    && d.levels.implementation == d.levels.contextBreadth == d.levels.verification == level
    && d.levels.visualRuntime == 1
    && d.levels.coordination == (if parallel && count <= 2 then 3 else level)
    && d.componentCount >= 1 && (count >= 1 ==> d.componentCount == count) && (count < 1 ==> d.componentCount == 1)
    && d.parallel == parallel
    && (if exists i :: 0 <= i < |reasons| && Tells(reasons[i]) then Kept(d.rationale, reasons, Tells, Itself)
        else d.rationale == ["legacy model-authored intake"])
  }

  function Itself(text: string): string { text }

  lemma {:induction false} NonBlankKeeps(texts: seq<string>)
    ensures Kept(NonBlank(texts), texts, Tells, Itself)
    ensures NonBlank(texts) != [] <==> exists i :: 0 <= i < |texts| && Tells(texts[i])
  {
    hide Kept, Strip;
    if texts == [] {
      NothingKept(Tells, Itself);
    } else {
      var front, last := texts[..|texts| - 1], texts[|texts| - 1];
      NonBlankKeeps(front);
      KeptGrows(NonBlank(front), front, last, Tells, Itself);
      assert texts == front + [last];
      assert NonBlank(texts) == if Tells(last) then NonBlank(front) + [Itself(last)] else NonBlank(front);
      if i :| 0 <= i < |texts| && Tells(texts[i]) {
        assert i < |front| ==> Tells(front[i]);
      }
      if i :| 0 <= i < |front| && Tells(front[i]) {
        assert Tells(texts[i]);
      }
    }
  }

  lemma ProjectionMeans(count: int, parallel: bool, reasons: seq<string>, d: Demand)
    ensures LegacyDemand(count, parallel, reasons) == d <==> Projects(count, parallel, reasons, d)
  {
    hide Kept, NonBlank, Tells;
    NonBlankKeeps(reasons);
    if Projects(count, parallel, reasons, d) && exists i :: 0 <= i < |reasons| && Tells(reasons[i]) {
      KeptOnce(d.rationale, NonBlank(reasons), reasons, Tells, Itself);
    }
  }

  // ---------------------------------------------------------------- goal intake

  predicate IsQuestion(q: Question) { Strip(q.question) != "" }

  function Unchanged(q: Question): Question { q }

  lemma {:induction false} QuestionsKept(questions: seq<Question>)
    ensures Kept(UsableQuestions(questions), questions, IsQuestion, Unchanged)
  {
    hide Kept, Strip;
    if questions == [] {
      NothingKept(IsQuestion, Unchanged);
    } else {
      var front, last := questions[..|questions| - 1], questions[|questions| - 1];
      QuestionsKept(front);
      KeptGrows(UsableQuestions(front), front, last, IsQuestion, Unchanged);
      assert questions == front + [last];
      assert UsableQuestions(questions)
             == if IsQuestion(last) then UsableQuestions(front) + [Unchanged(last)] else UsableQuestions(front);
    }
  }

  predicate GivesNoReason(raw: RawStrings) { raw in {Absent, Many([]), One(""), Null} }

  /** A nested demand borrows the count, the flag and the reasons that only the intake around it gives. */
  ghost predicate SaysNestedDemand(p: DemandPayload, count: int, parallel: bool, reasons: seq<string>, d: Demand) {
    && SaysLevels(p.levels, d.levels)
    && SaysCount(p.componentCount, count, d.componentCount) && SaysFlag(p.parallel, parallel, d.parallel)
    && d.rationale != []
    && if GivesNoReason(p.rationale) && reasons != [] then d.rationale == reasons else SaysTexts(p.rationale, d.rationale)
  }

  lemma NestedDemandsMean(p: DemandPayload, count: int, parallel: bool, reasons: seq<string>, d: Demand)
    requires count >= 1 && IsClean(reasons)
    ensures ParseDemand(Rebound(p, count, parallel, reasons)) == Ok(d)
            <==> SaysNestedDemand(p, count, parallel, reasons, d)
  {
    hide ParseDemand, SaysLevels, SaysTexts, IsClean;
    DemandsMean(Rebound(p, count, parallel, reasons), d);
    GivenReasons(reasons, d.rationale);
  }

  lemma GivenReasons(reasons: seq<string>, texts: seq<string>)
    requires IsClean(reasons)
    ensures SaysTexts(Many(reasons), texts) <==> texts == reasons
  {
    hide SaysTexts, IsClean, Clean;
    CleanIsClean(reasons);
    StringsMean(Many(reasons), texts);
  }

  ghost predicate SaysIntakeDemand(p: IntakePayload, count: int, parallel: bool, reasons: seq<string>, d: Demand) {
    match p.demand
    case Some(own) => SaysNestedDemand(own, count, parallel, reasons, d)
    case None =>
      var fallback := if p.recommendation in {None, Some("")} then "legacy model-authored intake"
                      else p.recommendation.value;
      Projects(count, parallel, if reasons != [] then reasons else [fallback], d)
  }

  /** Its reasons, or else the ones of its demand. */
  ghost predicate SaysReasons(p: IntakePayload, i: Intake) {
    exists reasons ::
      && SaysTexts(p.reasons, reasons) && i.reasons == (if reasons != [] then reasons else i.demand.rationale)
      && SaysIntakeDemand(p, i.componentCount, i.parallel, reasons, i.demand)
  }

  predicate SaysCoordination(p: IntakePayload, text: string) {
    if !Blank(p.coordinationSummary) then text == Strip(p.coordinationSummary.value)
    else if p.coordination in {None, Some("")} then text == "single coordinated workflow"
    else text == Strip(p.coordination.value)
  }

  ghost predicate SaysLists(p: IntakePayload, i: Intake) {
    && SaysTexts(p.deliverables, i.deliverables) && SaysTexts(p.constraints, i.constraints)
    && SaysTexts(p.exclusions, i.exclusions) && SaysTexts(p.expectations, i.expectations)
    && SaysTexts(p.assumptions, i.assumptions) && SaysTexts(p.risks, i.risks)
  }

  ghost predicate SaysQuestions(raw: RawQuestions, questions: seq<Question>) {
    raw.wellFormed && |raw.questions| <= 3 && Kept(questions, raw.questions, IsQuestion, Unchanged)
  }

  ghost predicate SaysIntake(p: IntakePayload, i: Intake) {
    && SaysQuestions(p.questions, i.questions)
    && SaysCount(p.componentCount, if Says(p.breadth, {"multi_component"}) then 2 else 1, i.componentCount)
    && SaysFlag(p.parallel, Says(p.coordination, {"parallel", "recursive"}), i.parallel)
    && SaysReasons(p, i)
    && !Blank(p.objective) && i.objective == Strip(p.objective.value)
    && !Blank(p.uncertainty) && i.uncertainty == Strip(p.uncertainty.value)
    && SaysLists(p, i) && SaysCoordination(p, i.coordination)
  }

  lemma IntakeDemandsMean(p: IntakePayload, count: int, parallel: bool, reasons: seq<string>, d: Demand)
    requires count >= 1 && IsClean(reasons)
    ensures IntakeDemand(p, count, parallel, reasons) == Ok(d) <==> SaysIntakeDemand(p, count, parallel, reasons, d)
  {
    hide ParseDemand, Rebound, SaysNestedDemand, Projects, LegacyDemand, IsClean;
    match p.demand
    case Some(own) => NestedDemandsMean(own, count, parallel, reasons, d);
    case None =>
      var fallback := if p.recommendation in {None, Some("")} then "legacy model-authored intake"
                      else p.recommendation.value;
      ProjectionMeans(count, parallel, if reasons != [] then reasons else [fallback], d);
  }

  lemma ListsMean(p: IntakePayload, i: Intake)
    ensures ParseLists(p) == Ok(Lists(i.deliverables, i.constraints, i.exclusions, i.expectations, i.assumptions, i.risks))
            <==> SaysLists(p, i)
  {
    hide ParseStrings, SaysTexts;
    StringsMean(p.deliverables, i.deliverables);
    StringsMean(p.constraints, i.constraints);
    StringsMean(p.exclusions, i.exclusions);
    StringsMean(p.expectations, i.expectations);
    StringsMean(p.assumptions, i.assumptions);
    StringsMean(p.risks, i.risks);
  }

  lemma QuestionsMean(raw: RawQuestions, questions: seq<Question>)
    ensures SaysQuestions(raw, questions) <==>
              raw.wellFormed && |raw.questions| <= 3 && questions == UsableQuestions(raw.questions)
  {
    hide Kept, UsableQuestions;
    QuestionsKept(raw.questions);
    if SaysQuestions(raw, questions) {
      KeptOnce(questions, UsableQuestions(raw.questions), raw.questions, IsQuestion, Unchanged);
    }
  }

  lemma CountsMean(raw: RawCount, missing: int, count: int)
    requires missing >= 1
    ensures ParseCount(raw, missing) == Ok(count) <==> SaysCount(raw, missing, count)
    ensures SaysCount(raw, missing, count) ==> count >= 1
  {
  }

  /** The reasons the payload itself gives, if they can be read. */
  lemma ReasonsMean(p: IntakePayload, i: Intake)
    requires i.componentCount >= 1
    ensures SaysReasons(p, i) <==>
              var reasons := ParseStrings(p.reasons);
              && reasons.Ok? && i.reasons == (if reasons.value != [] then reasons.value else i.demand.rationale)
              && IntakeDemand(p, i.componentCount, i.parallel, reasons.value) == Ok(i.demand)
  {
    hide ParseStrings, SaysTexts, IntakeDemand, SaysIntakeDemand, IsClean;
    if ParseStrings(p.reasons).Ok? {
      var reasons := ParseStrings(p.reasons).value;
      ParsedStringsAreClean(p.reasons);
      StringsMean(p.reasons, reasons);
      IntakeDemandsMean(p, i.componentCount, i.parallel, reasons, i.demand);
    }
    forall reasons | SaysTexts(p.reasons, reasons)
      ensures ParseStrings(p.reasons) == Ok(reasons)
    {
      StringsMean(p.reasons, reasons);
    }
  }

  lemma CoordinationMeans(p: IntakePayload, text: string)
    ensures CoordinationSummary(p) == text <==> SaysCoordination(p, text)
  {
    hide Strip;
    assert p.coordination in {None, Some("")} <==> p.coordination.None? || p.coordination.value == "";
  }

  lemma DefaultsMean(p: IntakePayload)
    ensures TokenOf(p.breadth) == "multi_component" <==> Says(p.breadth, {"multi_component"})
    ensures TokenOf(p.coordination) in ["parallel", "recursive"] <==> Says(p.coordination, {"parallel", "recursive"})
  {
    hide TokenOf, Says;
    BlankTokens(p.breadth);
    BlankTokens(p.coordination);
  }

  lemma RequiredMeans(raw: Option<string>, text: string)
    ensures Required(raw) == Ok(text) <==> !Blank(raw) && text == Strip(raw.value)
  {
    hide Strip;
  }

  /** An intake is read exactly as the payload says it. */
  lemma IntakesMean(p: IntakePayload, i: Intake)
    ensures ParseIntake(p) == Ok(i) <==> SaysIntake(p, i)
  {
    hide ParseCount, SaysCount, ParseFlag, SaysFlag, ParseStrings, IntakeDemand, SaysReasons, ParseLists, SaysLists,
      SaysQuestions, UsableQuestions, Required, Blank, Strip, SaysCoordination, CoordinationSummary, Says, TokenOf;
    DefaultsMean(p);
    var missing := if Says(p.breadth, {"multi_component"}) then 2 else 1;
    CountsMean(p.componentCount, missing, i.componentCount);
    FlagsMean(p.parallel, Says(p.coordination, {"parallel", "recursive"}), i.parallel);
    QuestionsMean(p.questions, i.questions);
    RequiredMeans(p.objective, i.objective);
    RequiredMeans(p.uncertainty, i.uncertainty);
    ListsMean(p, i);
    CoordinationMeans(p, i.coordination);
    if i.componentCount >= 1 {
      ReasonsMean(p, i);
    }
  }

  // ---------------------------------------------------------------- whole decisions

  function Plain(raw: Option<string>): string { if Blank(raw) then "" else Strip(raw.value) }

  /** It asks for tools and for effects that can be read, none of them to write or to reach outside. */
  ghost predicate OnlyOperates(p: Payload) {
    && SaysFlag(p.needsTools, false, true) && Readable(p.effects) && (exists e :: AsksFor(p.effects, e))
    && !AsksFor(p.effects, WRITE) && !AsksFor(p.effects, EXTERNAL)
  }

  /** The outcome is one the route can have, or a product that only operates on the workspace. */
  ghost predicate HasOutcome(p: Payload, r: Route, o: Outcome) {
    || SaysOutcome(p.outcome, r, o)
    || (r == Action && o == WorkspaceOperation && Says(p.outcome, {"runnable_product", "durable_project"})
        && OnlyOperates(p))
  }

  ghost predicate SaysDecisionDemand(raw: Option<DemandPayload>, intake: Option<Intake>, d: Demand) {
    match raw
    case Some(own) => SaysDemand(own, d)
    case None =>
      match intake
      case Some(i) => Projects(i.componentCount, i.parallel, i.reasons, d)
      case None => Projects(1, false, ["legacy model-authored semantic route"], d)
  }

  ghost predicate HasAuthorities(p: Payload, input: string, d: Decision) {
    && Readable(p.effects) && !p.spans.SpansOther?
    && (forall e :: AsksFor(p.effects, e) ==> MayHave(p.spans, e, input))
    && (forall e :: e in d.effects <==> Granted(p.effects, p.spans, e))
    && forall e :: e in d.effects ==> Quoted(d.spans, p.spans, e)
  }

  ghost predicate SaysOptionalIntake(raw: Option<IntakePayload>, wanted: bool, intake: Option<Intake>) {
    if raw.Some? && wanted then intake.Some? && SaysIntake(raw.value, intake.value) else intake.None?
  }

  /** What the decision says is what the payload says, field by field, and its route allows it. */
  ghost predicate SaysDecision(p: Payload, input: string, forced: Option<Route>, wantIntake: bool, d: Decision) {
    && SaysRoute(p.route, d.route) && (forced.Some? ==> forced.value == d.route) && HasOutcome(p, d.route, d.outcome)
    && !Blank(p.interpretation) && d.interpretation == Strip(p.interpretation.value)
    && SaysTitle(p.title, d.interpretation, d.title)
    && HasAuthorities(p, input, d)
    && SaysFlag(p.needsTools, false, d.needsTools) && SaysUncertainty(p.uncertainty, d.uncertainty)
    && d.clarification == Plain(p.clarification) && (d.uncertainty == ClarificationNeeded ==> d.clarification != "")
    && d.directResponse == (if d.route == Goal then "" else Plain(p.directResponse))
    && SaysOptionalIntake(p.intake, wantIntake, d.intake) && SaysDecisionDemand(p.demand, d.intake, d.demand)
    && RouteAllows(d)
  }

  lemma PlainMeans(raw: Option<string>)
    ensures Plain(raw) == TextOf(raw) && (Plain(raw) == "" <==> Blank(raw))
  {
    hide Strip;
  }

  lemma OptionalIntakesMean(raw: Option<IntakePayload>, wanted: bool, intake: Option<Intake>)
    ensures ParseOptionalIntake(raw, wanted) == Ok(intake) <==> SaysOptionalIntake(raw, wanted, intake)
  {
    hide ParseIntake, SaysIntake;
    if raw.Some? && intake.Some? {
      IntakesMean(raw.value, intake.value);
    }
  }

  lemma DecisionDemandsMean(raw: Option<DemandPayload>, intake: Option<Intake>, d: Demand)
    ensures ParseDecisionDemand(raw, intake) == Ok(d) <==> SaysDecisionDemand(raw, intake, d)
  {
    hide ParseDemand, SaysDemand, LegacyDemand, Projects;
    match raw
    case Some(own) => DemandsMean(own, d);
    case None =>
      match intake
      case Some(i) => ProjectionMeans(i.componentCount, i.parallel, i.reasons, d);
      case None => ProjectionMeans(1, false, ["legacy model-authored semantic route"], d);
  }

  lemma OperationsMean(p: Payload)
    requires Readable(p.effects)
    ensures LocalOperation(p) <==> OnlyOperates(p)
  {
    hide ParseEffects, ParseFlag, SaysFlag, LocalOperation, Readable, AsksFor;
    EffectsMean(p.effects);
    FlagsMean(p.needsTools, false, true);
    RepairSeesEffects(p);
    var effects := ParseEffects(p.effects).value;
    if effects != [] {
      assert effects[0] in effects;
    }
  }

  lemma ProductsMean(p: Payload)
    requires SaysRoute(p.route, Action)
    ensures ActionForProduct(p) <==> Says(p.outcome, {"runnable_product", "durable_project"})
  {
  }

  lemma OtherRoutesMean(p: Payload, r: Route)
    requires SaysRoute(p.route, r)
    ensures r != Action ==> ContractOutcome(DropGoalResponse(p)).outcome == p.outcome
    ensures Plain(ContractOutcome(DropGoalResponse(p)).directResponse)
            == if r == Goal then "" else Plain(p.directResponse)
  {
    hide Strip, Lower, LocalOperation, OutcomeName;
    EmptyStrip();
    PlainMeans(p.directResponse);
    RouteNames();
  }

  lemma RouteNames()
    ensures RouteName(Chat) == "chat" && RouteName(Action) == "action" && RouteName(Goal) == "goal"
    ensures "chat" != "goal" && "action" != "goal" && "chat" != "action"
  {
  }

  /** After the repairs the parser sees one of the outcomes the payload has. */
  lemma RepairedOutcomesMean(p: Payload, r: Route, o: Outcome)
    requires SaysRoute(p.route, r) && Readable(p.effects)
    ensures ParseOutcome(ContractOutcome(DropGoalResponse(p)).outcome, r) == Ok(o) <==> HasOutcome(p, r, o)
  {
    hide ParseOutcome, SaysOutcome, ContractOutcome, DropGoalResponse, OnlyOperates, Readable, Says, SaysRoute,
      LocalOperation;
    OutcomesMean(p.outcome, r, o);
    OtherRoutesMean(p, r);
    if r == Action {
      RepairedActionsMean(p, o);
    }
  }

  lemma RepairedActionsMean(p: Payload, o: Outcome)
    requires SaysRoute(p.route, Action) && Readable(p.effects)
    ensures ParseOutcome(ContractOutcome(DropGoalResponse(p)).outcome, Action) == Ok(o) <==> HasOutcome(p, Action, o)
  {
    hide ParseOutcome, OnlyOperates, Readable, LocalOperation, ContractOutcome, DropGoalResponse;
    OperationsMean(p);
    ProductsMean(p);
    OutcomesMean(p.outcome, Action, o);
    if ActionForProduct(p) {
      ProductTokens(p);
      OutcomesMean(Some("workspace_operation"), Action, o);
      OutcomesParse(WorkspaceOperation, Action);
    } else {
      OtherActions(p);
    }
  }

  lemma ProductNames()
    ensures OutcomeName(RunnableProduct) == "runnable_product" && OutcomeName(DurableProject) == "durable_project"
  {
  }

  lemma OtherActions(p: Payload)
    requires SaysRoute(p.route, Action) && !ActionForProduct(p)
    ensures ContractOutcome(DropGoalResponse(p)) == p
  {
    hide LocalOperation, Strip, Lower, RouteName, OutcomeName;
    RouteNames();
    ProductNames();
    assert DropGoalResponse(p) == p;
    var products := [OutcomeName(RunnableProduct), OutcomeName(DurableProject)];
    assert TokenOf(p.outcome) in products ==>
        TokenOf(p.outcome) == OutcomeName(RunnableProduct) || TokenOf(p.outcome) == OutcomeName(DurableProject);
    if p.outcome.None? {
      assert TokenOf(p.outcome) == "" by { NothingSaid(); }
    }
  }

  lemma NothingSaid()
    ensures TokenOf(None) == ""
  {
  }

  lemma FieldsMean(p: Payload, d: Decision)
    ensures ParseFlag(p.needsTools, false) == Ok(d.needsTools) <==> SaysFlag(p.needsTools, false, d.needsTools)
    ensures ParseUncertainty(p.uncertainty) == Ok(d.uncertainty) <==> SaysUncertainty(p.uncertainty, d.uncertainty)
    ensures ParseTitle(p.title, d.interpretation) == Ok(d.title) <==> SaysTitle(p.title, d.interpretation, d.title)
    ensures ParseRoute(p.route) == Ok(d.route) <==> SaysRoute(p.route, d.route)
    ensures TextOf(p.interpretation) == d.interpretation && d.interpretation != "" <==>
              !Blank(p.interpretation) && d.interpretation == Strip(p.interpretation.value)
    ensures TextOf(p.clarification) == Plain(p.clarification)
  {
    hide ParseFlag, SaysFlag, ParseUncertainty, SaysUncertainty, ParseTitle, SaysTitle, ParseRoute, SaysRoute, Strip;
    FlagsMean(p.needsTools, false, d.needsTools);
    UncertaintiesMean(p.uncertainty, d.uncertainty);
    TitlesMean(p.title, d.interpretation, d.title);
    RoutesMean(p.route, d.route);
    PlainMeans(p.interpretation);
    PlainMeans(p.clarification);
  }

  /** The repaired payload and the stages of the parser, in the terms of the payload; authority apart. */
  lemma StagesMean(p: Payload, input: string, forced: Option<Route>, wantIntake: bool, d: Decision)
    requires ParseAuthority(p.effects, p.spans, input) == Ok(Authority(d.effects, d.spans))
    requires HasAuthorities(p, input, d) && SoundDemand(d.demand)
    ensures Stages(ContractOutcome(DropGoalResponse(p)), input, forced, wantIntake, d)
            <==> SaysDecision(p, input, forced, wantIntake, d)
  {
    hide ParseRoute, ParseOutcome, TextOf, ParseTitle, ParseAuthority, ParseFlag, ParseUncertainty, ParseOptionalIntake,
      ParseDecisionDemand, CheckRoute, SaysRoute, HasOutcome, SaysTitle, SaysFlag, SaysUncertainty, SaysOptionalIntake,
      SaysDecisionDemand, RouteAllows, Blank, Strip, Plain, ContractOutcome, DropGoalResponse, HasAuthorities, SoundDemand;
    var q := ContractOutcome(DropGoalResponse(p));
    RepairsKeepTheRest(p);
    FieldsMean(p, d);
    OptionalIntakesMean(p.intake, wantIntake, d.intake);
    DecisionDemandsMean(p.demand, d.intake, d.demand);
    CheckedRoutesAreAllowed(d);
    if SaysRoute(p.route, d.route) {
      assert Readable(p.effects) by { ReadableAuthorities(p, input, d); }
      RepairedOutcomesMean(p, d.route, d.outcome);
      OtherRoutesMean(p, d.route);
      PlainMeans(q.directResponse);
    }
  }

  lemma ReadableAuthorities(p: Payload, input: string, d: Decision)
    ensures HasAuthorities(p, input, d) ==> Readable(p.effects)
  {
  }

  lemma AuthoritiesMean(p: Payload, input: string, d: Decision)
    ensures ParseAuthority(p.effects, p.spans, input) == Ok(Authority(d.effects, d.spans)) ==> HasAuthorities(p, input, d)
    ensures HasAuthorities(p, input, d) ==>
              ParseAuthority(p.effects, p.spans, input).Ok?
              && forall e :: e in ParseAuthority(p.effects, p.spans, input).value.effects <==> e in d.effects
  {
    hide ParseAuthority, Readable, AsksFor, MayHave, Granted, Quoted;
    AuthorityMeans(p.effects, p.spans, input);
  }

  /** An accepted decision says what the payload says. */
  lemma AcceptedDecisionsSayThePayload(p: Payload, input: string, forced: Option<Route>, wantIntake: bool, d: Decision)
    requires Parse(p, input, forced, wantIntake) == Ok(d)
    ensures SaysDecision(p, input, forced, wantIntake, d)
  {
    hide ParseRepaired, ContractOutcome, DropGoalResponse, Stages, SaysDecision, HasAuthorities, ParseAuthority,
      SoundDemand;
    var q := ContractOutcome(DropGoalResponse(p));
    ParsedInStages(q, input, forced, wantIntake, d);
    RepairsKeepTheRest(p);
    assert ParseAuthority(p.effects, p.spans, input) == Ok(Authority(d.effects, d.spans)) by {
      AuthorityStage(q, input, forced, wantIntake, d);
    }
    AuthoritiesMean(p, input, d);
    assert SoundDemand(d.demand) by { ParsedDemands(p, input, forced, wantIntake, d); }
    StagesMean(p, input, forced, wantIntake, d);
  }

  lemma AuthorityStage(q: Payload, input: string, forced: Option<Route>, wantIntake: bool, d: Decision)
    ensures Stages(q, input, forced, wantIntake, d) ==>
              ParseAuthority(q.effects, q.spans, input) == Ok(Authority(d.effects, d.spans))
  {
  }

  lemma ParsedDemands(p: Payload, input: string, forced: Option<Route>, wantIntake: bool, d: Decision)
    requires Parse(p, input, forced, wantIntake) == Ok(d)
    ensures SoundDemand(d.demand)
  {
    hide Parse, SoundDemand, RouteAllows, Authorized, Concise, SoundIntake, Settled, Strip;
    ParsedDecisionsAreSound(p, input, forced, wantIntake);
  }

  lemma SaidDemandIsSound(raw: Option<DemandPayload>, intake: Option<Intake>, d: Demand)
    requires SaysDecisionDemand(raw, intake, d)
    ensures SoundDemand(d)
  {
    hide SaysDecisionDemand, SoundDemand, ParseDecisionDemand;
    DecisionDemandsMean(raw, intake, d);
    DecisionDemandIsSound(raw, intake);
  }

  /** A payload that says some decision is accepted. */
  lemma SayingADecisionIsEnough(p: Payload, input: string, forced: Option<Route>, wantIntake: bool, d: Decision)
    requires SaysDecision(p, input, forced, wantIntake, d)
    ensures Parse(p, input, forced, wantIntake).Ok?
  {
    hide ParseRepaired, ContractOutcome, DropGoalResponse, Stages, SaysDecision, HasAuthorities, ParseAuthority,
      SoundDemand, SaysDecisionDemand;
    SaidAuthorities(p, input, forced, wantIntake, d);
    AuthoritiesMean(p, input, d);
    var a := ParseAuthority(p.effects, p.spans, input).value;
    var granted := d.(effects := a.effects, spans := a.spans);
    AuthoritiesMean(p, input, granted);
    SameSaid(p, input, forced, wantIntake, d, granted);
    SaidDemandIsSound(p.demand, d.intake, d.demand);
    StagesMean(p, input, forced, wantIntake, granted);
    ParsedInStages(ContractOutcome(DropGoalResponse(p)), input, forced, wantIntake, granted);
  }

  lemma SaidAuthorities(p: Payload, input: string, forced: Option<Route>, wantIntake: bool, d: Decision)
    requires SaysDecision(p, input, forced, wantIntake, d)
    ensures HasAuthorities(p, input, d) && SaysDecisionDemand(p.demand, d.intake, d.demand)
  {
    hide SaysTitle, SaysIntake, RouteAllows, HasAuthorities, SaysDecisionDemand;
  }

  lemma SameSaid(p: Payload, input: string, forced: Option<Route>, wantIntake: bool, d: Decision, granted: Decision)
    requires SaysDecision(p, input, forced, wantIntake, d) && HasAuthorities(p, input, granted)
    requires granted == d.(effects := granted.effects, spans := granted.spans)
    requires forall e :: e in granted.effects <==> e in d.effects
    ensures SaysDecision(p, input, forced, wantIntake, granted)
  {
    hide SaysRoute, HasOutcome, SaysTitle, SaysFlag, SaysUncertainty, SaysOptionalIntake, SaysDecisionDemand, Blank, Strip,
      Plain, HasAuthorities;
    NoEffects(granted.effects);
    NoEffects(d.effects);
  }

  lemma NoEffects(effects: seq<Effect>)
    ensures effects == [] <==> forall e :: e !in effects
  {
    if effects != [] {
      assert effects[0] in effects;
    }
  }

  /** The parser accepts exactly the payloads that say a decision. */
  lemma PayloadsAreAcceptedIffTheySayADecision(p: Payload, input: string, forced: Option<Route>, wantIntake: bool)
    ensures Parse(p, input, forced, wantIntake).Ok? <==> exists d :: SaysDecision(p, input, forced, wantIntake, d)
  {
    hide Parse, SaysDecision;
    if Parse(p, input, forced, wantIntake).Ok? {
      AcceptedDecisionsSayThePayload(p, input, forced, wantIntake, Parse(p, input, forced, wantIntake).value);
    }
    if d :| SaysDecision(p, input, forced, wantIntake, d) {
      SayingADecisionIsEnough(p, input, forced, wantIntake, d);
    }
  }
}
