/** Bounding, compacting and rotating a conversation: where it is cut, what stays adjacent, what repetition does. */
module Compaction {

  import opened Text

  datatype Role = User | Assistant | ToolRole | System

  datatype ToolCall = ToolCall(id: string, name: string, args: string)

  datatype Message = Message(role: Role, content: Option<string>, calls: seq<ToolCall>, id: string)

  type Conversation = seq<Message>

  const MAX_TOOL_RESULT_CHARS: nat := 24_000
  const MAX_SUMMARY_CHARS: nat := 16_000

  // ---------------------------------------------------------------- clipping

  function Digits(n: nat): nat { if n < 10 then 1 else Digits(n / 10) + 1 }

  function Decimal(n: nat): (text: string)
    ensures |text| == Digits(n)
  {
    if n < 10 then [('0' as int + n) as char] else Decimal(n / 10) + [('0' as int + n % 10) as char]
  }

  /** str(removed); the count is negative only for a one-character text and a zero limit. */
  function Count(n: int): string { if n < 0 then "-" + Decimal(-n) else Decimal(n) }

  function MarkerHead(): (text: string)
    ensures |text| == 22
  {
    "\n... [harness clipped "
  }

  function MarkerTail(): (text: string)
    ensures |text| == 12
  {
    " chars] ...\n"
  }

  function Marker(n: int): string { MarkerHead() + Count(n) + MarkerTail() }

  function Head(limit: nat): nat { if limit * 2 / 3 > 1 then limit * 2 / 3 else 1 }

  function Tail(limit: nat): nat { if limit - Head(limit) > 1 then limit - Head(limit) else 1 }

  function Prefix(text: string, n: nat): string { if |text| <= n then text else text[..n] }

  function Suffix(text: string, n: nat): string { if |text| <= n then text else text[|text| - n..] }

  function Clip(text: string, limit: nat): string {
    if |text| <= limit then text
    else Prefix(text, Head(limit)) + Marker(|text| - Head(limit) - Tail(limit)) + Suffix(text, Tail(limit))
  }

  function ClipTimes(text: string, limit: nat, times: nat): string {
    if times == 0 then text else Clip(ClipTimes(text, limit, times - 1), limit)
  }

  /** A text that clipping produced: both ends, and the count between them. */
  function Clipped(head: string, n: nat, tail: string): string { head + Marker(n) + tail }

  lemma MarkerLength(n: nat)
    ensures |Marker(n)| == 34 + Digits(n)
  {
    hide MarkerHead, MarkerTail;
  }

  lemma EndsFillLimit(limit: nat)
    requires limit >= 2
    ensures Head(limit) + Tail(limit) == limit
  {
  }

  lemma FirstClip(text: string, limit: nat)
    requires limit >= 2 && |text| > limit
    ensures Clip(text, limit) == Clipped(text[..Head(limit)], |text| - limit, text[|text| - Tail(limit)..])
  {
    EndsFillLimit(limit);
  }

  lemma {:induction false} DecimalIsTheNumber(n: nat)
    ensures AllDigits(Decimal(n)) && NumberOf(Decimal(n)) == n
  {
    if n >= 10 {
      DecimalIsTheNumber(n / 10);
      assert Decimal(n)[..|Decimal(n)| - 1] == Decimal(n / 10);
    }
  }

  /** An over-long text keeps its first two thirds and its last third of the limit, and names what went between them. */
  lemma ClippingShows(text: string, limit: nat)
    requires limit >= 2 && |text| > limit
    ensures exists digits: string ::
              && AllDigits(digits) && NumberOf(digits) == |text| - limit
              && Clip(text, limit)
                 == text[..limit * 2 / 3] + "\n... [harness clipped " + digits + " chars] ...\n"
                    + text[|text| - (limit - limit * 2 / 3)..]
  {
    hide Decimal;
    DecimalIsTheNumber(|text| - limit);
    var digits := Decimal(|text| - limit);
    assert Marker(|text| - limit) == "\n... [harness clipped " + digits + " chars] ...\n";
    FirstClip(text, limit);
  }

  /** A clipped text exceeds its limit by exactly the marker, so it is clipped again when it is met again. */
  lemma ClippedLength(text: string, limit: nat)
    requires limit >= 2
    ensures |text| > limit ==> |Clip(text, limit)| == limit + 34 + Digits(|text| - limit)
    ensures |Clip(text, limit)| > limit <==> |text| > limit
  {
    hide Marker, Head, Tail, Digits;
    if |text| > limit {
      assert Head(limit) <= limit && Tail(limit) <= limit by { EndsFillLimit(limit); HeadsArePositive(limit); }
      EndsFillLimit(limit);
      FirstClip(text, limit);
      MarkerLength(|text| - limit);
    }
  }

  /** Clipping a clipped text keeps both ends and counts only the old marker. */
  lemma ClipAgain(head: string, n: nat, tail: string, limit: nat)
    requires limit >= 2 && |head| == Head(limit) && |tail| == Tail(limit)
    ensures Clip(Clipped(head, n, tail), limit) == Clipped(head, 34 + Digits(n), tail)
  {
    hide Marker, Head, Tail;
    EndsFillLimit(limit);
    MarkerLength(n);
    var text := Clipped(head, n, tail);
    FirstClip(text, limit);
    assert text[..|head|] == head;
    assert text[|text| - |tail|..] == tail;
  }

  lemma {:induction false} DigitsGrow(n: nat, m: nat)
    requires n <= m
    ensures Digits(n) <= Digits(m)
  {
    if n >= 10 {
      DigitsGrow(n / 10, m / 10);
    }
  }

  lemma TwoDigits(n: nat)
    ensures Digits(n) == 1 <==> n < 10
    ensures Digits(n) == 2 <==> 10 <= n < 100
  {
  }

  /** From three digits on a number is larger than its digit count plus 34. */
  lemma {:induction false} FewDigits(k: nat)
    requires k >= 3
    ensures Digits(34 + k) < k
  {
    if k == 3 {
      assert Digits(37) == 2;
    } else {
      FewDigits(k - 1);
      OneMoreDigit(34 + k - 1);
    }
  }

  lemma {:induction false} OneMoreDigit(n: nat)
    ensures Digits(n + 1) <= Digits(n) + 1
  {
    if n + 1 >= 10 && n >= 10 {
      assert (n + 1) / 10 <= n / 10 + 1;
      DigitsGrow((n + 1) / 10, n / 10 + 1);
      OneMoreDigit(n / 10);
    }
  }

  /** The counts that repeated clipping writes into the marker. */
  function NextCount(n: nat): nat { 34 + Digits(n) }

  lemma CountsSettle(n: nat)
    ensures NextCount(NextCount(NextCount(n))) == NextCount(NextCount(n)) <==> Digits(n) <= 65
    ensures Digits(n) <= 65 ==> NextCount(NextCount(n)) == 36
  {
    var k := NextCount(n);
    TwoDigits(k);
    if Digits(n) > 65 {
      DigitsGrow(100, k);
      assert Digits(100) == 3;
      FewDigits(Digits(k));
    } else {
      assert Digits(36) == 2;
    }
  }

  /** Every pass over an over-long text keeps the same ends; only the count changes. */
  lemma {:induction false} ClippingKeepsEnds(text: string, limit: nat, times: nat) returns (n: nat)
    requires limit >= 2 && |text| > limit && times >= 1
    ensures ClipTimes(text, limit, times) == Clipped(text[..Head(limit)], n, text[|text| - Tail(limit)..])
    ensures times == 1 ==> n == |text| - limit
    ensures times == 2 ==> n == NextCount(|text| - limit)
    ensures times == 3 ==> n == NextCount(NextCount(|text| - limit))
    ensures times == 4 ==> n == NextCount(NextCount(NextCount(|text| - limit)))
  {
    hide Clip, Marker, Head, Tail, Digits;
    assert Head(limit) <= limit && Tail(limit) <= limit by { EndsFillLimit(limit); HeadsArePositive(limit); }
    if times == 1 {
      n := |text| - limit;
      FirstClip(text, limit);
    } else {
      var m := ClippingKeepsEnds(text, limit, times - 1);
      n := NextCount(m);
      ClipAgain(text[..Head(limit)], m, text[|text| - Tail(limit)..], limit);
    }
  }

  lemma HeadsArePositive(limit: nat)
    ensures Head(limit) >= 1 && Tail(limit) >= 1
  {
  }

  lemma {:induction false} DecimalIsInjective(n: nat, m: nat)
    requires Decimal(n) == Decimal(m)
    ensures n == m
  {
    assert |Decimal(n)| == |Decimal(m)|;
    if n >= 10 {
      assert Decimal(n)[..|Decimal(n)| - 1] == Decimal(n / 10);
      assert Decimal(m)[..|Decimal(m)| - 1] == Decimal(m / 10);
      DecimalIsInjective(n / 10, m / 10);
      LastDigit(n, m);
    } else if m < 10 {
      assert Decimal(n)[0] == Decimal(m)[0];
    }
  }

  lemma LastDigit(n: nat, m: nat)
    requires n >= 10 && m >= 10 && Decimal(n) == Decimal(m)
    ensures n % 10 == m % 10
  {
    assert Decimal(n)[|Decimal(n)| - 1] == ('0' as int + n % 10) as char;
    assert Decimal(m)[|Decimal(m)| - 1] == ('0' as int + m % 10) as char;
  }

  lemma ClippedIsInjective(head: string, n: nat, m: nat, tail: string)
    ensures Clipped(head, n, tail) == Clipped(head, m, tail) <==> n == m
  {
    hide Decimal, MarkerHead, MarkerTail, Digits;
    if Clipped(head, n, tail) == Clipped(head, m, tail) {
      var from := |head| + 22;
      var a, b := Clipped(head, n, tail), Clipped(head, m, tail);
      assert |Decimal(n)| == |Decimal(m)|;
      assert a[from..from + |Decimal(n)|] == Decimal(n);
      assert b[from..from + |Decimal(m)|] == Decimal(m);
      DecimalIsInjective(n, m);
    }
  }

  /** The third pass is a fixed point exactly when the number of removed characters has at most 65 digits. */
  lemma ClippingSettlesByThirdPass(text: string, limit: nat)
    requires limit >= 2 && |text| > limit
    ensures ClipTimes(text, limit, 4) == ClipTimes(text, limit, 3) <==> Digits(|text| - limit) <= 65
  {
    hide ClipTimes, Clipped, Digits, Head, Tail, NextCount;
    var n := ClippingKeepsEnds(text, limit, 3);
    var m := ClippingKeepsEnds(text, limit, 4);
    assert Head(limit) <= |text| && Tail(limit) <= |text| by { EndsFillLimit(limit); HeadsArePositive(limit); }
    CountsSettle(|text| - limit);
    ClippedIsInjective(text[..Head(limit)], n, m, text[|text| - Tail(limit)..]);
  }

  // ---------------------------------------------------------------- bounding and estimating

  function BoundMessage(m: Message): Message {
    if m.role == ToolRole && m.content.Some? then m.(content := Some(Clip(m.content.value, MAX_TOOL_RESULT_CHARS))) else m
  }

  function Bound(c: Conversation): Conversation {
    seq(|c|, i requires 0 <= i < |c| => BoundMessage(c[i]))
  }

  function CallChars(calls: seq<ToolCall>): nat {
    if calls == [] then 0
    else CallChars(calls[..|calls| - 1]) + |calls[|calls| - 1].name| + |calls[|calls| - 1].args|
  }

  function MessageChars(m: Message): nat { (if m.content.Some? then |m.content.value| else 0) + CallChars(m.calls) }

  function Chars(c: Conversation): nat {
    if c == [] then 0 else Chars(c[..|c| - 1]) + MessageChars(c[|c| - 1])
  }

  method EstimateChars(c: Conversation) returns (total: nat)
    ensures total == Chars(c)
  {
    total := 0;
    for i := 0 to |c|
      invariant total == Chars(c[..i])
    {
      assert c[..i + 1][..i] == c[..i];
      var message := c[i];
      total := total + if message.content.Some? then |message.content.value| else 0;
      ghost var start := total;
      for j := 0 to |message.calls|
        invariant total == start + CallChars(message.calls[..j])
      {
        assert message.calls[..j + 1][..j] == message.calls[..j];
        total := total + |message.calls[j].name| + |message.calls[j].args|;
      }
      assert message.calls[..|message.calls|] == message.calls;
    }
    assert c[..|c|] == c;
  }

  /** The estimate of a conversation is the sum over its messages, and over the calls of each. */
  lemma {:induction false} CharsAdd(c: Conversation, d: Conversation)
    ensures Chars(c + d) == Chars(c) + Chars(d)
  {
    hide MessageChars;
    if d == [] {
      assert c + d == c;
    } else {
      CharsAdd(c, d[..|d| - 1]);
      assert (c + d)[..|c + d| - 1] == c + d[..|d| - 1];
    }
  }

  lemma {:induction false} CallCharsAdd(calls: seq<ToolCall>, more: seq<ToolCall>)
    ensures CallChars(calls + more) == CallChars(calls) + CallChars(more)
  {
    if more == [] {
      assert calls + more == calls;
    } else {
      CallCharsAdd(calls, more[..|more| - 1]);
      assert (calls + more)[..|calls + more| - 1] == calls + more[..|more| - 1];
    }
  }

  /** A message counts its content, if any, and the name and arguments of every call. */
  lemma OneMessageCounts(role: Role, content: Option<string>, id: string, call: ToolCall, more: seq<ToolCall>)
    ensures Chars([]) == 0
    ensures Chars([Message(role, content, [], id)]) == if content.Some? then |content.value| else 0
    ensures Chars([Message(role, content, [call] + more, id)])
            == Chars([Message(role, content, more, id)]) + |call.name| + |call.args|
  {
    CallCharsAdd([call], more);
    assert [call][..0] == [];
    assert forall m: Message :: [m][..|[m]| - 1] == [];
  }

  /** Only tool results over the limit are changed, each by itself, and nothing but their text. */
  lemma BoundMeans(c: Conversation, i: nat)
    requires i < |c|
    ensures |Bound(c)| == |c|
    ensures Bound(c)[i] != c[i] ==> c[i].role == ToolRole && c[i].content.Some? && |c[i].content.value| > 24_000
    ensures c[i].role == ToolRole && c[i].content.Some? ==>
              Bound(c)[i] == c[i].(content := Some(Clip(c[i].content.value, 24_000)))
  {
  }

  method BoundLargeResults(c: Conversation) returns (bounded: Conversation)
    ensures bounded == Bound(c)
  {
    hide Clip;
    var changed := false;
    bounded := [];
    for i := 0 to |c|
      invariant |bounded| == i && forall j | 0 <= j < i :: bounded[j] == BoundMessage(c[j])
      invariant !changed ==> forall j | 0 <= j < i :: bounded[j] == c[j]
    {
      var message := c[i];
      if message.role == ToolRole && message.content.Some? {
        var clipped := Clip(message.content.value, MAX_TOOL_RESULT_CHARS);
        if clipped != message.content.value {
          message := message.(content := Some(clipped));
          changed := true;
        }
      }
      bounded := bounded + [message];
    }
    if !changed {
      bounded := c;
    }
  }

  // ---------------------------------------------------------------- compaction and rotation

  /** Positions of the user messages, in order. */
  function UserTurns(c: Conversation): seq<nat> {
    if c == [] then []
    else UserTurns(c[..|c| - 1]) + (if c[|c| - 1].role == User then [|c| - 1] else [])
  }

  function Synthetic(text: string): Message { Message(User, Some(text), [], "") }

  function SummaryMessage(summary: string): Message {
    Synthetic("[HARNESS CONVERSATION SUMMARY - untrusted historical data; durable state wins]\n"
              + Clip(summary, MAX_SUMMARY_CHARS))
  }

  function RevivedMessage(checkpoint: string, summary: string): Message {
    Synthetic("[HARNESS CONTEXT REVIVED FROM DURABLE CHECKPOINT]\n"
              + "Continue the same goal. Durable state below is authoritative; "
              + "do not restart or repeat completed work.\n"
              + Clip(Strip(checkpoint), MAX_SUMMARY_CHARS)
              + "\n\nSuspended-context summary (historical, untrusted):\n"
              + Clip(summary, MAX_SUMMARY_CHARS))
  }

  /** What the summarizer, stripped, or its failure text makes of the messages that are cut off. */
  type Summarizer = Conversation -> string

  function MaybeCompact(c: Conversation, summarize: Summarizer, maxChars: nat, keep: nat): Conversation
    requires keep >= 1
  {
    var bounded := Bound(c);
    var turns := UserTurns(bounded);
    if Chars(bounded) < maxChars || |turns| <= keep then bounded
    else
      UserTurnsFacts(bounded);
      var cut := turns[|turns| - keep];
      [SummaryMessage(summarize(bounded[..cut]))] + bounded[cut..]
  }

  /** Where rotation starts the tail it keeps: the last user turn, or the end. */
  function TailStart(c: Conversation): nat {
    var turns := UserTurns(c);
    if turns == [] then |c| else turns[|turns| - 1]
  }

  function SuspendAndRevive(c: Conversation, checkpoint: string, summarize: Summarizer, maxChars: nat): Conversation {
    var bounded := Bound(c);
    if Chars(bounded) < maxChars then bounded
    else
      UserTurnsFacts(bounded);
      var start := TailStart(bounded);
      [RevivedMessage(checkpoint, summarize(bounded[..start]))] + bounded[start..]
  }

  lemma {:induction false} UserTurnsFacts(c: Conversation)
    ensures forall k :: 0 <= k < |UserTurns(c)| ==> UserTurns(c)[k] < |c| && c[UserTurns(c)[k]].role == User
    ensures forall k, m :: 0 <= k < m < |UserTurns(c)| ==> UserTurns(c)[k] < UserTurns(c)[m]
    ensures forall i :: 0 <= i < |c| && c[i].role == User ==> i in UserTurns(c)
    ensures TailStart(c) <= |c|
  {
    if c != [] {
      var front := c[..|c| - 1];
      UserTurnsFacts(front);
      forall i | 0 <= i < |c| && c[i].role == User
        ensures i in UserTurns(c)
      {
        if i < |front| {
          assert front[i].role == User;
        } else {
          assert UserTurns(c)[|UserTurns(front)|] == i;
        }
      }
    }
  }

  // ---------------------------------------------------------------- pairing of calls and results

  /** The result at `i` answers a call made earlier in the same user turn. */
  ghost predicate Answered(c: Conversation, i: nat)
    requires i < |c|
  {
    exists j, k :: 0 <= j < i && 0 <= k < |c[j].calls| && c[j].calls[k].id == c[i].id
                   && forall u :: j < u <= i ==> c[u].role != User
  }

  ghost predicate Paired(c: Conversation) {
    forall i :: 0 <= i < |c| && c[i].role == ToolRole ==> Answered(c, i)
  }

  lemma BoundKeepsShape(c: Conversation)
    ensures |Bound(c)| == |c|
    ensures forall i :: 0 <= i < |c| ==> Bound(c)[i] == c[i].(content := Bound(c)[i].content)
    ensures forall i :: 0 <= i < |c| && c[i].role != ToolRole ==> Bound(c)[i] == c[i]
  {
    hide Clip;
  }

  lemma BoundKeepsPairs(c: Conversation)
    requires Paired(c)
    ensures Paired(Bound(c))
  {
    hide Bound;
    BoundKeepsShape(c);
    var b := Bound(c);
    forall i | 0 <= i < |b| && b[i].role == ToolRole
      ensures Answered(b, i)
    {
      assert Answered(c, i);
      var j, k :| 0 <= j < i && 0 <= k < |c[j].calls| && c[j].calls[k].id == c[i].id
                  && forall u :: j < u <= i ==> c[u].role != User;
      assert b[j].calls[k].id == b[i].id;
    }
  }

  lemma CutsAreOutside(c: Conversation, j: nat, at: nat, cut: nat)
    requires at < |c| && cut < |c| && c[cut].role == User
    requires forall u :: j < u <= at ==> c[u].role != User
    ensures cut <= j || at < cut
  {
  }

  lemma SuffixAnswered(c: Conversation, cut: nat, d: Conversation, at: nat)
    requires cut <= at < |c| && Answered(c, at) && c[cut].role == User
    requires |d| == |c| - cut + 1 && forall u :: cut <= u < |c| ==> d[u - cut + 1] == c[u]
    ensures Answered(d, at - cut + 1)
  {
    var j, k :| 0 <= j < at && 0 <= k < |c[j].calls| && c[j].calls[k].id == c[at].id
                && forall u :: j < u <= at ==> c[u].role != User;
    CutsAreOutside(c, j, at, cut);
    assert d[j - cut + 1].calls[k].id == d[at - cut + 1].id;
    forall u | j - cut + 1 < u <= at - cut + 1
      ensures d[u].role != User
    {
      assert d[u] == c[u - 1 + cut];
    }
  }

  /** Cutting at a user turn and putting one call-free user message in front separates no call from its result. */
  lemma CutKeepsPairs(c: Conversation, cut: nat, first: Message)
    requires Paired(c) && cut <= |c| && (cut < |c| ==> c[cut].role == User)
    requires first.role == User
    ensures Paired([first] + c[cut..])
  {
    hide Answered;
    var d := [first] + c[cut..];
    forall i | 0 <= i < |d| && d[i].role == ToolRole
      ensures Answered(d, i)
    {
      SuffixAnswered(c, cut, d, i - 1 + cut);
    }
  }

  /** The two shapes a compacted or rotated conversation can have. */
  ghost predicate CutAtUserTurn(bounded: Conversation, result: Conversation, emptyTail: bool) {
    || result == bounded
    || (exists cut :: 0 <= cut <= |bounded| && (cut < |bounded| ==> bounded[cut].role == User)
                      && (cut == |bounded| ==> emptyTail)
                      && result != [] && result[0].role == User && result[0].calls == []
                      && result == [result[0]] + bounded[cut..])
  }

  const SUMMARY_HEADING: string := "[HARNESS CONVERSATION SUMMARY - untrusted historical data; durable state wins]\n"

  /** Where the user speaks. */
  ghost function UserPlaces(c: Conversation): set<int> { set i | 0 <= i < |c| && c[i].role == User }

  /** Head and tail make up the conversation. */
  ghost predicate Parts(c: Conversation, head: Conversation, tail: Conversation) { head + tail == c }

  lemma {:induction false} TurnsAreCounted(c: Conversation)
    ensures |UserTurns(c)| == |UserPlaces(c)|
  {
    if c != [] {
      TurnsAreCounted(c[..|c| - 1]);
      PlacesOfMore(c[..|c| - 1], c[|c| - 1]);
      assert c == c[..|c| - 1] + [c[|c| - 1]];
    }
  }

  lemma PlacesOfMore(c: Conversation, m: Message)
    ensures UserPlaces(c + [m]) == UserPlaces(c) + (if m.role == User then {|c|} else {})
    ensures |c| !in UserPlaces(c)
  {
    forall i
      ensures i in UserPlaces(c + [m]) <==> i in UserPlaces(c) || (i == |c| && m.role == User)
    {
      if 0 <= i < |c| {
        assert (c + [m])[i] == c[i];
      }
    }
  }

  /**
   * A conversation within its budget, or with no more user turns than are kept, is only bounded. Otherwise it starts
   * with the summary of a head, all that is missing from the bounded conversation, and goes on with the kept turns, from
   * a user message on.
   */
  lemma CompactionSummarisesTheHead(c: Conversation, summarize: Summarizer, maxChars: nat, keep: nat)
    requires keep >= 1
    ensures var result := MaybeCompact(c, summarize, maxChars, keep);
            if Chars(Bound(c)) < maxChars || |UserPlaces(Bound(c))| <= keep then result == Bound(c)
            else
              exists head: Conversation, tail: Conversation ::
                && Parts(Bound(c), head, tail)
                && result == [Message(User, Some(SUMMARY_HEADING + Clip(summarize(head), MAX_SUMMARY_CHARS)), [], "")]
                             + tail
                && |UserPlaces(tail)| == keep && tail[0].role == User
  {
    hide Bound, Chars, UserTurns, UserPlaces, Clip;
    var bounded := Bound(c);
    TurnsAreCounted(bounded);
    if Chars(bounded) >= maxChars && |UserTurns(bounded)| > keep {
      var cut := UserTurns(bounded)[|UserTurns(bounded)| - keep];
      TurnIsUser(bounded, |UserTurns(bounded)| - keep);
      UserTurnsOfSuffix(bounded, keep);
      TurnsAreCounted(bounded[cut..]);
      assert Parts(bounded, bounded[..cut], bounded[cut..]);
    }
  }

  const REVIVAL_HEADING: string :=
    "[HARNESS CONTEXT REVIVED FROM DURABLE CHECKPOINT]\n"
    + "Continue the same goal. Durable state below is authoritative; "
    + "do not restart or repeat completed work.\n"

  /**
   * Within its budget a conversation is only bounded. Otherwise it starts with the checkpoint and the summary of a head,
   * all that is missing from the bounded conversation, and goes on with the last user turn, if there is one.
   */
  lemma RotationSummarisesTheHead(c: Conversation, checkpoint: string, summarize: Summarizer, maxChars: nat)
    ensures var result := SuspendAndRevive(c, checkpoint, summarize, maxChars);
            if Chars(Bound(c)) < maxChars then result == Bound(c)
            else
              exists head: Conversation, tail: Conversation ::
                && Parts(Bound(c), head, tail)
                && result == [Message(User, Some(REVIVAL_HEADING + Clip(Strip(checkpoint), MAX_SUMMARY_CHARS)
                                                 + "\n\nSuspended-context summary (historical, untrusted):\n"
                                                 + Clip(summarize(head), MAX_SUMMARY_CHARS)), [], "")] + tail
                && (if |UserPlaces(Bound(c))| == 0 then tail == []
                    else |UserPlaces(tail)| == 1 && tail[0].role == User)
  {
    hide Bound, Chars, UserTurns, UserPlaces, Clip;
    var bounded := Bound(c);
    TurnsAreCounted(bounded);
    UserTurnsFacts(bounded);
    if Chars(bounded) >= maxChars {
      var start := TailStart(bounded);
      if UserTurns(bounded) != [] {
        TurnIsUser(bounded, |UserTurns(bounded)| - 1);
        UserTurnsOfSuffix(bounded, 1);
        TurnsAreCounted(bounded[start..]);
      }
      assert Parts(bounded, bounded[..start], bounded[start..]);
    }
  }

  lemma CompactionCutsAtUserTurns(c: Conversation, summarize: Summarizer, maxChars: nat, keep: nat)
    requires keep >= 1
    ensures CutAtUserTurn(Bound(c), MaybeCompact(c, summarize, maxChars, keep), false)
    ensures Paired(c) ==> Paired(MaybeCompact(c, summarize, maxChars, keep))
  {
    hide Bound, MaybeCompact, Chars, UserTurns, Paired;
    var bounded := Bound(c);
    var result := MaybeCompact(c, summarize, maxChars, keep);
    CompactOnce(c, summarize, maxChars, keep);
    if Paired(c) {
      BoundKeepsPairs(c);
    }
    if Paired(c) && result != bounded {
      CutKeepsPairs(bounded, UserTurns(bounded)[|UserTurns(bounded)| - keep], result[0]);
    }
  }

  lemma RotationCutsAtUserTurns(c: Conversation, checkpoint: string, summarize: Summarizer, maxChars: nat)
    ensures CutAtUserTurn(Bound(c), SuspendAndRevive(c, checkpoint, summarize, maxChars), UserTurns(Bound(c)) == [])
    ensures Paired(c) ==> Paired(SuspendAndRevive(c, checkpoint, summarize, maxChars))
  {
    hide Bound, SuspendAndRevive, Chars, UserTurns, Paired;
    var bounded := Bound(c);
    var result := SuspendAndRevive(c, checkpoint, summarize, maxChars);
    RotateOnce(c, checkpoint, summarize, maxChars);
    if Paired(c) {
      BoundKeepsPairs(c);
    }
    if Paired(c) && result != bounded {
      CutKeepsPairs(bounded, TailStart(bounded), result[0]);
    }
  }

  // ---------------------------------------------------------------- repetition

  /** User positions of a user message followed by a tail: the first place, then the tail's, moved by one. */
  lemma {:induction false} UserTurnsAfterCut(first: Message, tail: Conversation)
    requires first.role == User
    ensures var turns := UserTurns([first] + tail);
            && |turns| == |UserTurns(tail)| + 1 && turns[0] == 0
            && forall k :: 0 <= k < |UserTurns(tail)| ==> turns[k + 1] == UserTurns(tail)[k] + 1
  {
    if tail == [] {
      assert [first] + tail == [first] && [first][..0] == [];
      assert UserTurns([]) == [];
    } else {
      var front := tail[..|tail| - 1];
      UserTurnsAfterCut(first, front);
      assert ([first] + tail)[..|tail|] == [first] + front;
    }
  }

  lemma UserTurnsOfLonger(c: Conversation, cut: nat)
    requires cut < |c|
    ensures var front := c[..|c| - 1];
            UserTurns(c[cut..]) ==
              UserTurns(front[cut..]) + if c[|c| - 1].role == User then [|c| - 1 - cut] else []
  {
    assert c[cut..][..|c[cut..]| - 1] == c[..|c| - 1][cut..];
  }

  /** Cutting at the k-th user turn from the end leaves k user turns, the first of them at the front. */
  lemma {:induction false} UserTurnsOfSuffix(c: Conversation, keep: nat)
    requires 1 <= keep <= |UserTurns(c)|
    ensures var cut := UserTurns(c)[|UserTurns(c)| - keep];
            cut < |c| && |UserTurns(c[cut..])| == keep && UserTurns(c[cut..])[0] == 0
  {
    UserTurnsFacts(c);
    var front, last := c[..|c| - 1], c[|c| - 1];
    var cut := UserTurns(c)[|UserTurns(c)| - keep];
    assert UserTurns(c) == UserTurns(front) + if last.role == User then [|front|] else [];
    hide UserTurns;
    UserTurnsOfLonger(c, cut);
    if last.role == User && keep == 1 {
      assert cut == |front| && front[cut..] == [];
      NoTurns();
    } else {
      UserTurnsOfSuffix(front, if last.role == User then keep - 1 else keep);
    }
  }

  lemma SameRolesSameTurns(c: Conversation, d: Conversation)
    requires |c| == |d| && forall i :: 0 <= i < |c| ==> c[i].role == d[i].role
    ensures UserTurns(c) == UserTurns(d)
  {
    if c != [] {
      SameRolesSameTurns(c[..|c| - 1], d[..|d| - 1]);
    }
  }

  /** Compacting a compacted conversation again, with any budget, never makes it longer. */
  lemma CompactionNeverLengthens(c: Conversation, summarize: Summarizer, maxChars: nat, keep: nat)
    requires keep >= 1
    ensures |MaybeCompact(c, summarize, maxChars, keep)| <= |c|
  {
    hide Bound, Clip, Chars, UserTurns;
    BoundKeepsShape(c);
    var bounded := Bound(c);
    UserTurnsFacts(bounded);
    var turns := UserTurns(bounded);
    if |turns| > keep {
      assert turns[0] < turns[|turns| - keep];
    }
  }

  /** A user message put in front of the last `keep` user turns makes one turn more. */
  lemma TurnsAfterCut(first: Message, bounded: Conversation, keep: nat)
    requires first.role == User && 1 <= keep <= |UserTurns(bounded)|
    ensures var turns := UserTurns(bounded);
            var cut := turns[|turns| - keep];
            cut <= |bounded| && var once := [first] + bounded[cut..];
                                UserTurns(Bound(once)) == UserTurns(once) && |UserTurns(once)| == keep + 1
                                && UserTurns(once)[0] == 0 && UserTurns(once)[1] == 1
  {
    hide UserTurns, Bound;
    UserTurnsOfSuffix(bounded, keep);
    var turns := UserTurns(bounded);
    var once := [first] + bounded[turns[|turns| - keep]..];
    UserTurnsAfterCut(first, bounded[turns[|turns| - keep]..]);
    BoundKeepsShape(once);
    SameRolesSameTurns(once, Bound(once));
  }

  lemma CompactOnce(c: Conversation, summarize: Summarizer, maxChars: nat, keep: nat)
    requires keep >= 1
    ensures var bounded, once := Bound(c), MaybeCompact(c, summarize, maxChars, keep);
            if Chars(bounded) < maxChars || |UserTurns(bounded)| <= keep then once == bounded
            else
              var cut := UserTurns(bounded)[|UserTurns(bounded)| - keep];
              cut < |bounded| && bounded[cut].role == User && once != []
              && once == [once[0]] + bounded[cut..] && once[0].role == User && once[0].calls == []
  {
    hide Bound, SummaryMessage, Chars, UserTurns;
    var bounded, once := Bound(c), MaybeCompact(c, summarize, maxChars, keep);
    if Chars(bounded) >= maxChars && |UserTurns(bounded)| > keep {
      var cut := UserTurns(bounded)[|UserTurns(bounded)| - keep];
      TurnIsUser(bounded, |UserTurns(bounded)| - keep);
      var first := SummaryMessage(summarize(bounded[..cut]));
      assert once == [first] + bounded[cut..];
      SummaryIsUser(summarize(bounded[..cut]));
      FirstOfJoin(first, bounded[cut..]);
    }
  }

  lemma FirstOfJoin(first: Message, rest: Conversation)
    ensures ([first] + rest)[0] == first && |[first] + rest| == |rest| + 1
  {
  }

  lemma TurnIsUser(c: Conversation, k: nat)
    requires k < |UserTurns(c)|
    ensures UserTurns(c)[k] < |c| && c[UserTurns(c)[k]].role == User
  {
    UserTurnsFacts(c);
  }

  lemma SummaryIsUser(summary: string)
    ensures SummaryMessage(summary).role == User && SummaryMessage(summary).calls == []
  {
    hide Clip;
  }

  /** The summary and `keep` user turns are left; a second compaction keeps them message by message, up to re-bounding. */
  lemma CompactionKeepsItsTail(c: Conversation, summarize: Summarizer, again: Summarizer, maxChars: nat, keep: nat)
    requires keep >= 1
    requires Chars(Bound(c)) >= maxChars && |UserTurns(Bound(c))| > keep
    ensures var once := MaybeCompact(c, summarize, maxChars, keep);
            var twice := MaybeCompact(once, again, maxChars, keep);
            |UserTurns(once)| == keep + 1 && |twice| == |once| && twice[1..] == Bound(once)[1..]
  {
    hide Bound, MaybeCompact, Chars, UserTurns;
    var once := MaybeCompact(c, summarize, maxChars, keep);
    CompactOnce(c, summarize, maxChars, keep);
    TurnsAfterCut(once[0], Bound(c), keep);
    BoundKeepsShape(once);
    CompactOnce(once, again, maxChars, keep);
  }

  lemma RotateOnce(c: Conversation, checkpoint: string, summarize: Summarizer, maxChars: nat)
    ensures var bounded, once := Bound(c), SuspendAndRevive(c, checkpoint, summarize, maxChars);
            if Chars(bounded) < maxChars then once == bounded
            else
              var start := TailStart(bounded);
              start <= |bounded| && once != [] && once == [once[0]] + bounded[start..]
              && (start < |bounded| ==> bounded[start].role == User)
              && (start == |bounded| ==> UserTurns(bounded) == [])
              && once[0].role == User && once[0].calls == []
  {
    hide Bound, RevivedMessage, Chars, UserTurns;
    var bounded := Bound(c);
    UserTurnsFacts(bounded);
    RevivalIsUser(checkpoint, summarize(bounded[..TailStart(bounded)]));
  }

  /**
   * Rotating a rotated conversation lengthens it exactly when nothing but the revived message was left and even
   * that exceeds the budget.
   */
  lemma RotationLengthensOnlyALoneRevival(c: Conversation, checkpoint: string, summarize: Summarizer,
                                          later: string, again: Summarizer, maxChars: nat)
    requires Chars(Bound(c)) >= maxChars
    ensures var once := SuspendAndRevive(c, checkpoint, summarize, maxChars);
            var twice := SuspendAndRevive(once, later, again, maxChars);
            |twice| > |once| <==> UserTurns(Bound(c)) == [] && Chars(Bound(once)) >= maxChars
  {
    hide Bound, SuspendAndRevive, Chars, UserTurns;
    var once := SuspendAndRevive(c, checkpoint, summarize, maxChars);
    RotateOnce(c, checkpoint, summarize, maxChars);
    BoundKeepsShape(once);
    RotateOnce(once, later, again, maxChars);
    if UserTurns(Bound(c)) == [] {
      LoneTurn(once[0]);
      assert once == [once[0]];
      SameRolesSameTurns(once, Bound(once));
    } else {
      TurnsAfterCut(once[0], Bound(c), 1);
    }
  }

  /** One further call, with its own checkpoint, summarizer and budget. */
  datatype Rotation = Rotation(checkpoint: string, summarize: Summarizer, maxChars: nat)

  function Rotate(c: Conversation, r: Rotation): Conversation {
    SuspendAndRevive(c, r.checkpoint, r.summarize, r.maxChars)
  }

  function RotateAll(c: Conversation, more: seq<Rotation>): Conversation {
    if more == [] then c else Rotate(RotateAll(c, more[..|more| - 1]), more[|more| - 1])
  }

  /** Some user turn comes after the first message. */
  predicate LaterTurn(c: Conversation) { UserTurns(c) != [] && UserTurns(c)[|UserTurns(c)| - 1] > 0 }

  lemma LaterTurnStays(c: Conversation, r: Rotation)
    requires LaterTurn(c)
    ensures LaterTurn(Rotate(c, r)) && |Rotate(c, r)| <= |c|
  {
    hide Bound, SuspendAndRevive, Chars, UserTurns;
    BoundKeepsShape(c);
    SameRolesSameTurns(c, Bound(c));
    RotateOnce(c, r.checkpoint, r.summarize, r.maxChars);
    if Chars(Bound(c)) >= r.maxChars {
      TurnsAfterCut(Rotate(c, r)[0], Bound(c), 1);
    }
  }

  lemma {:induction false} LaterTurnsNeverGrow(c: Conversation, more: seq<Rotation>)
    requires LaterTurn(c)
    ensures LaterTurn(RotateAll(c, more)) && |RotateAll(c, more)| <= |c|
  {
    hide LaterTurn, Rotate;
    if more != [] {
      LaterTurnsNeverGrow(c, more[..|more| - 1]);
      LaterTurnStays(RotateAll(c, more[..|more| - 1]), more[|more| - 1]);
    }
  }

  lemma LoneTurnRotates(m: Message, r: Rotation)
    requires m.role == User
    ensures var next := Rotate([m], r); next == [m] || (|next| == 2 && LaterTurn(next))
  {
    hide Bound, SuspendAndRevive, Chars, UserTurns;
    var c := [m];
    BoundKeepsShape(c);
    assert Bound(c) == c;
    RotateOnce(c, r.checkpoint, r.summarize, r.maxChars);
    LoneTurn(m);
    if Chars(c) >= r.maxChars {
      UserTurnsAfterCut(Rotate(c, r)[0], c);
      assert c[0..] == c;
    }
  }

  lemma {:induction false} LoneTurnGrowsOnce(m: Message, more: seq<Rotation>)
    requires m.role == User
    ensures var d := RotateAll([m], more); d == [m] || (|d| <= 2 && LaterTurn(d))
  {
    hide LaterTurn, Rotate;
    if more != [] {
      var d := RotateAll([m], more[..|more| - 1]);
      LoneTurnGrowsOnce(m, more[..|more| - 1]);
      if d == [m] {
        LoneTurnRotates(m, more[|more| - 1]);
      } else {
        LaterTurnStays(d, more[|more| - 1]);
      }
    }
  }

  /**
   * After one rotation no number of further calls, with any checkpoints, summaries and budgets, makes the conversation
   * longer, except that a revived message left alone may once be joined by a second one.
   */
  lemma RotationsGrowAtMostOnce(c: Conversation, first: Rotation, more: seq<Rotation>)
    requires Chars(Bound(c)) >= first.maxChars
    ensures var once := Rotate(c, first);
            |RotateAll(once, more)| <= if UserTurns(Bound(c)) == [] then 2 else |once|
  {
    hide Bound, SuspendAndRevive, Chars, UserTurns, RotateAll;
    var once := Rotate(c, first);
    RotateOnce(c, first.checkpoint, first.summarize, first.maxChars);
    if UserTurns(Bound(c)) == [] {
      assert once == [once[0]];
      LoneTurnGrowsOnce(once[0], more);
    } else {
      TurnsAfterCut(once[0], Bound(c), 1);
      LaterTurnsNeverGrow(once, more);
    }
  }

  /** Where the second call does lengthen the conversation, no call after it does. */
  lemma OnlyTheNextRotationLengthens(c: Conversation, first: Rotation, next: Rotation, more: seq<Rotation>)
    requires Chars(Bound(c)) >= first.maxChars
    requires UserTurns(Bound(c)) == [] && Chars(Bound(Rotate(c, first))) >= next.maxChars
    ensures var once := Rotate(c, first);
            var twice := Rotate(once, next);
            |twice| == |once| + 1 && |RotateAll(twice, more)| <= |twice|
  {
    hide Bound, SuspendAndRevive, Chars, UserTurns, RotateAll;
    var once := Rotate(c, first);
    RotateOnce(c, first.checkpoint, first.summarize, first.maxChars);
    assert once == [once[0]];
    RotateOnce(once, next.checkpoint, next.summarize, next.maxChars);
    BoundKeepsShape(once);
    SameRolesSameTurns(once, Bound(once));
    LoneTurn(once[0]);
    LoneTurnRotates(once[0], next);
    LaterTurnsNeverGrow(Rotate(once, next), more);
  }

  lemma LoneTurn(first: Message)
    requires first.role == User
    ensures UserTurns([first]) == [0]
  {
    assert [first][..0] == [];
  }

  lemma RevivalIsUser(checkpoint: string, summary: string)
    ensures RevivedMessage(checkpoint, summary).role == User && RevivedMessage(checkpoint, summary).calls == []
  {
    hide Clip, Strip;
  }

  lemma NoTurns()
    ensures UserTurns([]) == []
  {
  }

  /** Equal apart from the counts inside clip markers of tool results. */
  ghost predicate SameButMarkers(c: Conversation, d: Conversation) {
    |c| == |d| && forall i :: 0 <= i < |c| ==> c[i] == d[i] || OnlyMarkerDiffers(c[i], d[i])
  }

  ghost predicate OnlyMarkerDiffers(a: Message, b: Message) {
    && a.role == ToolRole && b == a.(content := b.content)
    && exists head, n: nat, m: nat, tail ::
         a.content == Some(Clipped(head, n, tail)) && b.content == Some(Clipped(head, m, tail))
  }

  lemma BoundTwiceChangesMarkersOnly(c: Conversation)
    ensures SameButMarkers(Bound(c), Bound(Bound(c)))
  {
    hide Clip, Clipped;
    forall i | 0 <= i < |c|
      ensures Bound(c)[i] == Bound(Bound(c))[i] || OnlyMarkerDiffers(Bound(c)[i], Bound(Bound(c))[i])
    {
      BoundMessageTwice(c[i]);
    }
  }

  lemma BoundMessageTwice(m: Message)
    ensures BoundMessage(m) == BoundMessage(BoundMessage(m))
            || OnlyMarkerDiffers(BoundMessage(m), BoundMessage(BoundMessage(m)))
  {
    hide Clip, Clipped, Head, Tail, Digits;
    if m.role == ToolRole && m.content.Some? {
      var text, limit := m.content.value, MAX_TOOL_RESULT_CHARS;
      if |text| > limit {
        assert Head(limit) <= limit && Tail(limit) <= limit by { EndsFillLimit(limit); HeadsArePositive(limit); }
        var head, tail := text[..Head(limit)], text[|text| - Tail(limit)..];
        FirstClip(text, limit);
        ClipAgain(head, |text| - limit, tail, limit);
      } else {
        ShortTextsStay(text, limit);
      }
    }
  }

  lemma ShortTextsStay(text: string, limit: nat)
    requires |text| <= limit
    ensures Clip(text, limit) == text
  {
  }

  /** Bounding leaves user messages alone, so a rotated conversation is bounded except for its tail. */
  lemma RotatedBoundsItsTail(c: Conversation, checkpoint: string, summarize: Summarizer, maxChars: nat)
    ensures var once := SuspendAndRevive(c, checkpoint, summarize, maxChars);
            SameButMarkers(once, Bound(once))
  {
    hide Clip, Chars, UserTurns, RevivedMessage, BoundMessage, Clipped;
    var bounded := Bound(c);
    UserTurnsFacts(bounded);
    BoundTwiceChangesMarkersOnly(c);
    var once := SuspendAndRevive(c, checkpoint, summarize, maxChars);
    if Chars(bounded) >= maxChars {
      var start := TailStart(bounded);
      RevivalIsUser(checkpoint, summarize(bounded[..start]));
      BoundKeepsShape(once);
      forall i | 0 <= i < |once|
        ensures once[i] == Bound(once)[i] || OnlyMarkerDiffers(once[i], Bound(once)[i])
      {
        if i > 0 {
          assert once[i] == bounded[start + i - 1];
          assert Bound(once)[i] == Bound(bounded)[start + i - 1];
        }
      }
    }
  }

  /** Rotation is idempotent up to marker counts as long as its re-bounded output fits the budget. */
  lemma RotationIsIdempotentUpToMarkers(c: Conversation, checkpoint: string, summarize: Summarizer,
                                        later: string, again: Summarizer, maxChars: nat)
    ensures var once := SuspendAndRevive(c, checkpoint, summarize, maxChars);
            Chars(Bound(once)) < maxChars ==>
              SameButMarkers(once, SuspendAndRevive(once, later, again, maxChars))
  {
    hide Bound, Clip, Chars, UserTurns, RevivedMessage, SameButMarkers;
    RotatedBoundsItsTail(c, checkpoint, summarize, maxChars);
  }
}
