/** The string operations the harness applies to paths, URLs and tool receipts. */
module Text {

  datatype Option<+T> = None | Some(value: T)

  /** The code points that Python's str.strip() removes. */
  predicate IsSpace(c: char) {
    var n := c as int;
    9 <= n <= 13 || 28 <= n <= 32 || n == 0x85 || n == 0xA0 || n == 0x1680
    || 0x2000 <= n <= 0x200A || n == 0x2028 || n == 0x2029 || n == 0x202F || n == 0x205F || n == 0x3000
  }

  predicate IsSlash(c: char) { c == '/' }

  predicate IsDigit(c: char) { '0' <= c <= '9' }

  predicate AllDigits(s: string) { s != "" && forall i | 0 <= i < |s| :: IsDigit(s[i]) }

  /** The number that decimal digits write. */
  function NumberOf(digits: string): nat
    requires forall i | 0 <= i < |digits| :: IsDigit(digits[i])
  {
    if digits == "" then 0
    else
      var last := digits[|digits| - 1];
      assert IsDigit(last);
      10 * NumberOf(digits[..|digits| - 1]) + (last as int - '0' as int)
  }

  function TrimLeft(s: string, p: char -> bool): string {
    if s != "" && p(s[0]) then TrimLeft(s[1..], p) else s
  }

  function TrimRight(s: string, p: char -> bool): string {
    if s != "" && p(s[|s| - 1]) then TrimRight(s[..|s| - 1], p) else s
  }

  function Trim(s: string, p: char -> bool): string { TrimRight(TrimLeft(s, p), p) }

  function Strip(s: string): string { Trim(s, IsSpace) }

  /** Neither end of `s` is a character that `p` removes. */
  predicate Trimmed(s: string, p: char -> bool) {
    s == "" || (!p(s[0]) && !p(s[|s| - 1]))
  }

  lemma TrimRightIsPrefix(s: string, p: char -> bool)
    ensures TrimRight(s, p) <= s
    ensures TrimRight(s, p) != "" ==> !p(TrimRight(s, p)[|TrimRight(s, p)| - 1])
  {
    if s != "" && p(s[|s| - 1]) {
      TrimRightIsPrefix(s[..|s| - 1], p);
    }
  }

  lemma {:induction false} TrimRightKeepsFirst(s: string, p: char -> bool)
    requires s != "" && !p(s[0])
    ensures TrimRight(s, p) != "" && TrimRight(s, p)[0] == s[0]
  {
    if p(s[|s| - 1]) {
      TrimRightKeepsFirst(s[..|s| - 1], p);
    }
  }

  lemma TrimLeftFirst(s: string, p: char -> bool)
    ensures TrimLeft(s, p) != "" ==> !p(TrimLeft(s, p)[0])
  {
  }

  lemma TrimTrims(s: string, p: char -> bool)
    ensures Trimmed(Trim(s, p), p)
    ensures Trimmed(s, p) ==> Trim(s, p) == s
  {
    TrimLeftFirst(s, p);
    TrimRightIsPrefix(TrimLeft(s, p), p);
  }

  lemma StripTwice(text: string)
    ensures Strip(Strip(text)) == Strip(text)
  {
    TrimTrims(text, IsSpace);
    TrimTrims(Strip(text), IsSpace);
  }

  lemma TrimLeftElements(s: string, p: char -> bool, c: char)
    ensures c in TrimLeft(s, p) ==> c in s
  {
    if s != "" && p(s[0]) {
      TrimLeftElements(s[1..], p, c);
    }
  }

  lemma TrimElements(s: string, p: char -> bool, c: char)
    ensures c in Trim(s, p) ==> c in s
  {
    TrimLeftElements(s, p, c);
    TrimRightIsPrefix(TrimLeft(s, p), p);
  }

  function ToSlash(s: string): (r: string) {
    seq(|s|, i requires 0 <= i < |s| => if s[i] == '\\' then '/' else s[i])
  }

  function LowerChar(c: char): char {
    if 'A' <= c <= 'Z' then ((c as int) + 32) as char else c
  }

  /** casefold() on the ASCII range; other characters are left alone. */
  function Lower(s: string): string {
    seq(|s|, i requires 0 <= i < |s| => LowerChar(s[i]))
  }

  /** How a workspace path is normalised before it is compared or stored. */
  function NormPath(raw: string): string { ToSlash(Strip(raw)) }

  lemma NormPathIdempotent(raw: string)
    ensures NormPath(NormPath(raw)) == NormPath(raw)
  {
    var t := Strip(raw);
    TrimTrims(raw, IsSpace);
    var n := ToSlash(t);
    assert Trimmed(n, IsSpace);
    TrimTrims(n, IsSpace);
    assert ToSlash(n) == n;
  }

  function Contains(text: string, needle: string): bool {
    needle <= text || (text != "" && Contains(text[1..], needle))
  }

  /** A text contains another exactly if it starts with it somewhere. */
  lemma {:induction false} ContainsMeans(text: string, needle: string)
    ensures Contains(text, needle) <==> exists i :: 0 <= i <= |text| && needle <= text[i..]
  {
    assert text[0..] == text;
    if text != "" {
      ContainsMeans(text[1..], needle);
      if i :| 0 <= i <= |text[1..]| && needle <= text[1..][i..] {
        assert text[1..][i..] == text[i + 1..];
      }
      if i :| 0 <= i <= |text| && needle <= text[i..] {
        if i > 0 {
          assert text[1..][i - 1..] == text[i..];
        }
      }
    }
  }

  lemma ContainsSuffix(pre: string, needle: string)
    ensures Contains(pre + needle, needle)
  {
    if pre == "" {
      assert pre + needle == needle;
    } else {
      ContainsSuffix(pre[1..], needle);
      assert (pre + needle)[1..] == pre[1..] + needle;
    }
  }

  predicate MentionsAny(text: string, markers: seq<string>) {
    exists i | 0 <= i < |markers| :: Contains(text, markers[i])
  }

  function Join(parts: seq<string>, sep: string): string {
    if parts == [] then ""
    else if |parts| == 1 then parts[0]
    else parts[0] + sep + Join(parts[1..], sep)
  }

  function Split(s: string, sep: char): (parts: seq<string>)
    ensures |parts| > 0
  {
    if s == "" then [""]
    else
      var rest := Split(s[1..], sep);
      if s[0] == sep then [""] + rest else [[s[0]] + rest[0]] + rest[1..]
  }

  function CountChar(s: string, c: char): nat {
    if s == "" then 0 else (if s[0] == c then 1 else 0) + CountChar(s[1..], c)
  }

  /** The components of a POSIX path: empty and "." components disappear. */
  function Components(parts: seq<string>): seq<string> {
    if parts == [] then []
    else if parts[0] == "" || parts[0] == "." then Components(parts[1..])
    else [parts[0]] + Components(parts[1..])
  }

  function PathRoot(path: string): string {
    if "//" <= path && !("///" <= path) then "//" else if "/" <= path then "/" else ""
  }

  /** The directory of a file, with "." for the workspace root. */
  function ParentDir(path: string): string {
    var parts := Components(Split(path, '/'));
    var text := PathRoot(path) + Join(if parts == [] then [] else parts[..|parts| - 1], "/");
    if text == "" then "." else text
  }

  function PathName(path: string): string {
    var parts := Components(Split(path, '/'));
    if parts == [] then "" else parts[|parts| - 1]
  }

  function LastIndexOf(s: string, c: char): (r: int)
    ensures -1 <= r < |s|
  {
    if s == "" then -1 else if s[|s| - 1] == c then |s| - 1 else LastIndexOf(s[..|s| - 1], c)
  }

  function PathStem(path: string): string {
    var name := PathName(path);
    var dot := LastIndexOf(name, '.');
    if 0 < dot < |name| - 1 then name[..dot] else name
  }

  ghost predicate Distinct<T>(xs: seq<T>) { forall i, j :: 0 <= i < j < |xs| ==> xs[i] != xs[j] }

  /** dict.fromkeys(xs): the first occurrence of every element, in order. */
  function Dedup<T(==)>(xs: seq<T>): (r: seq<T>) {
    if xs == [] then []
    else
      var front := Dedup(xs[..|xs| - 1]);
      if xs[|xs| - 1] in front then front else front + [xs[|xs| - 1]]
  }

  lemma {:induction false} DedupElements<T>(xs: seq<T>)
    ensures forall x :: x in Dedup(xs) <==> x in xs
    ensures Distinct(Dedup(xs))
  {
    if xs != [] {
      DedupElements(xs[..|xs| - 1]);
      assert xs == xs[..|xs| - 1] + [xs[|xs| - 1]];
    }
  }

  predicate LexLeq(a: string, b: string) {
    a == "" || (b != "" && (a[0] < b[0] || (a[0] == b[0] && LexLeq(a[1..], b[1..]))))
  }

  function InsertBy<T>(x: T, xs: seq<T>, leq: (T, T) -> bool): seq<T> {
    if xs == [] || leq(x, xs[0]) then [x] + xs else [xs[0]] + InsertBy(x, xs[1..], leq)
  }

  /** A stable sort by `leq`. */
  function SortBy<T>(xs: seq<T>, leq: (T, T) -> bool): seq<T> {
    if xs == [] then [] else InsertBy(xs[0], SortBy(xs[1..], leq), leq)
  }

  lemma {:induction false} InsertByElements<T>(x: T, xs: seq<T>, leq: (T, T) -> bool)
    ensures multiset(InsertBy(x, xs, leq)) == multiset{x} + multiset(xs)
  {
    if xs != [] && !leq(x, xs[0]) {
      InsertByElements(x, xs[1..], leq);
      assert xs == [xs[0]] + xs[1..];
    }
  }

  lemma {:induction false} SortByElements<T>(xs: seq<T>, leq: (T, T) -> bool)
    ensures multiset(SortBy(xs, leq)) == multiset(xs)
  {
    if xs != [] {
      SortByElements(xs[1..], leq);
      InsertByElements(xs[0], SortBy(xs[1..], leq), leq);
      assert xs == [xs[0]] + xs[1..];
    }
  }

  ghost predicate TotalPreorder<T(!new)>(leq: (T, T) -> bool) {
    (forall a, b :: leq(a, b) || leq(b, a)) && forall a, b, c :: leq(a, b) && leq(b, c) ==> leq(a, c)
  }

  ghost predicate SortedBy<T>(xs: seq<T>, leq: (T, T) -> bool) {
    forall i, j :: 0 <= i < j < |xs| ==> leq(xs[i], xs[j])
  }

  lemma {:induction false} InsertBySorts<T(!new)>(x: T, xs: seq<T>, leq: (T, T) -> bool)
    requires TotalPreorder(leq) && SortedBy(xs, leq)
    ensures SortedBy(InsertBy(x, xs, leq), leq)
  {
    if xs != [] {
      if leq(x, xs[0]) {
        assert forall i :: 0 <= i < |xs| ==> leq(x, xs[i]);
      } else {
        var rest := InsertBy(x, xs[1..], leq);
        InsertBySorts(x, xs[1..], leq);
        InsertByElements(x, xs[1..], leq);
        forall i | 0 <= i < |rest|
          ensures leq(xs[0], rest[i])
        {
          assert rest[i] in multiset(rest);
          assert rest[i] == x || rest[i] in xs[1..];
        }
      }
    }
  }

  /** SortBy sorts, for every total preorder. */
  lemma {:induction false} SortBySorts<T(!new)>(xs: seq<T>, leq: (T, T) -> bool)
    requires TotalPreorder(leq)
    ensures SortedBy(SortBy(xs, leq), leq)
  {
    if xs != [] {
      SortBySorts(xs[1..], leq);
      InsertBySorts(xs[0], SortBy(xs[1..], leq), leq);
    }
  }

  lemma {:induction false} LexTotal(a: string, b: string)
    ensures LexLeq(a, b) || LexLeq(b, a)
  {
    if a != "" && b != "" && a[0] == b[0] {
      LexTotal(a[1..], b[1..]);
    }
  }

  lemma {:induction false} LexTransitive(a: string, b: string, c: string)
    requires LexLeq(a, b) && LexLeq(b, c)
    ensures LexLeq(a, c)
  {
    if a != "" && a[0] == b[0] == c[0] {
      LexTransitive(a[1..], b[1..], c[1..]);
    }
  }

  function Repeat(c: char, n: nat): string { seq(n, _ => c) }

  function LongestLength(xs: seq<string>): nat {
    if xs == [] then 0
    else
      var rest := LongestLength(xs[1..]);
      if |xs[0]| > rest then |xs[0]| else rest
  }

  lemma LongestBounds(xs: seq<string>, x: string)
    requires x in xs
    ensures |x| <= LongestLength(xs)
  {
    if x != xs[0] {
      LongestBounds(xs[1..], x);
    }
  }

  /** A non-empty name longer than every name in `xs`. */
  function FreshName(xs: seq<string>): string { Repeat('a', LongestLength(xs) + 1) }

  lemma FreshNameIsFresh(xs: seq<string>)
    ensures FreshName(xs) != "" && FreshName(xs) !in xs
  {
    if FreshName(xs) in xs {
      LongestBounds(xs, FreshName(xs));
    }
  }

  // ---------------------------------------------------------------- what the operations mean

  lemma {:induction false} LeftTrimmed(s: string, p: char -> bool) returns (i: nat)
    ensures i <= |s| && TrimLeft(s, p) == s[i..] && forall k :: 0 <= k < i ==> p(s[k])
  {
    i := 0;
    if s != "" && p(s[0]) {
      var n := LeftTrimmed(s[1..], p);
      i := n + 1;
      assert s[1..][n..] == s[i..];
      assert forall k :: 0 < k < i ==> s[k] == s[1..][k - 1];
    }
  }

  lemma {:induction false} RightTrimmed(s: string, p: char -> bool) returns (j: nat)
    ensures j <= |s| && TrimRight(s, p) == s[..j] && forall k :: j <= k < |s| ==> p(s[k])
  {
    j := |s|;
    if s != "" && p(s[|s| - 1]) {
      var front := s[..|s| - 1];
      j := RightTrimmed(front, p);
      assert front[..j] == s[..j];
      assert forall k :: 0 <= k < |front| ==> s[k] == front[k];
    }
  }

  /** Trimming takes removable characters off both ends, and all of them. */
  lemma TrimmingMeans(s: string, p: char -> bool) returns (i: nat, j: nat)
    ensures i <= j <= |s| && Trim(s, p) == s[i..j] && Trimmed(Trim(s, p), p)
    ensures (forall k :: 0 <= k < i ==> p(s[k])) && forall k :: j <= k < |s| ==> p(s[k])
  {
    hide TrimLeft, TrimRight, Trimmed;
    TrimTrims(s, p);
    i := LeftTrimmed(s, p);
    var n := RightTrimmed(s[i..], p);
    j := i + n;
    assert s[i..][..n] == s[i..j];
    assert forall k :: j <= k < |s| ==> s[k] == s[i..][k - i];
  }

  /** `a` occurs before the first occurrence of `b`. */
  ghost predicate FirstBefore<T>(xs: seq<T>, a: T, b: T) {
    exists k :: 0 <= k < |xs| && xs[k] == a && forall m :: 0 <= m <= k ==> xs[m] != b
  }

  /** The elements stand in the order in which they first occur in `xs`. */
  ghost predicate InFirstOrder<T>(ys: seq<T>, xs: seq<T>) {
    forall i, j :: 0 <= i < j < |ys| ==> FirstBefore(xs, ys[i], ys[j])
  }

  lemma FirstBeforeStays<T>(xs: seq<T>, x: T, a: T, b: T)
    requires FirstBefore(xs, a, b)
    ensures FirstBefore(xs + [x], a, b)
  {
    var k :| 0 <= k < |xs| && xs[k] == a && forall m :: 0 <= m <= k ==> xs[m] != b;
    assert (xs + [x])[k] == a;
    assert forall m :: 0 <= m <= k ==> (xs + [x])[m] == xs[m];
  }

  lemma NewComesLast<T>(xs: seq<T>, a: T, x: T)
    requires a in xs && x !in xs
    ensures FirstBefore(xs + [x], a, x)
  {
    var k :| 0 <= k < |xs| && xs[k] == a;
    assert (xs + [x])[k] == a;
    forall m | 0 <= m <= k
      ensures (xs + [x])[m] != x
    {
      assert (xs + [x])[m] == xs[m] && xs[m] in xs;
    }
  }

  lemma StaysIn<T>(xs: seq<T>, x: T)
    ensures x in Dedup(xs) <==> x in xs
  {
    DedupElements(xs);
  }

  /** Removing repetitions keeps every element once, where it first occurred. */
  lemma {:induction false} DedupKeepsFirsts<T>(xs: seq<T>)
    ensures forall x :: x in Dedup(xs) <==> x in xs
    ensures Distinct(Dedup(xs)) && InFirstOrder(Dedup(xs), xs)
  {
    DedupElements(xs);
    if xs != [] {
      var front, last := xs[..|xs| - 1], xs[|xs| - 1];
      DedupKeepsFirsts(front);
      DedupElements(front);
      assert xs == front + [last];
      var before, after := Dedup(front), Dedup(xs);
      forall i, j | 0 <= i < j < |after|
        ensures FirstBefore(xs, after[i], after[j])
      {
        if j < |before| {
          FirstBeforeStays(front, last, before[i], before[j]);
        } else {
          assert after == before + [last] && last !in before && before[i] in before;
          StaysIn(front, before[i]);
          StaysIn(front, last);
          NewComesLast(front, before[i], last);
        }
      }
    }
  }

  ghost predicate Rising(places: seq<nat>) { forall k, m :: 0 <= k < m < |places| ==> places[k] < places[m] }

  /** The elements of `xs` that are kept stand at these places, and `ys` are their images. */
  ghost predicate KeptAt<T, U>(places: seq<nat>, ys: seq<U>, xs: seq<T>, keep: T -> bool, image: T -> U) {
    && |places| == |ys|
    && Rising(places)
    && (forall k :: 0 <= k < |places| ==> places[k] < |xs| && keep(xs[places[k]]) && ys[k] == image(xs[places[k]]))
    && forall i :: 0 <= i < |xs| && keep(xs[i]) ==> i in places
  }

  /** `ys` are the images of the elements of `xs` that are kept, in their order. */
  ghost predicate Kept<T, U>(ys: seq<U>, xs: seq<T>, keep: T -> bool, image: T -> U) {
    exists places: seq<nat> :: KeptAt(places, ys, xs, keep, image)
  }

  lemma NothingKept<T, U>(keep: T -> bool, image: T -> U)
    ensures Kept([], [], keep, image)
  {
    assert KeptAt([], [], [], keep, image);
  }

  lemma Skipped<T, U>(places: seq<nat>, ys: seq<U>, xs: seq<T>, x: T, keep: T -> bool, image: T -> U)
    requires KeptAt(places, ys, xs, keep, image) && !keep(x)
    ensures KeptAt(places, ys, xs + [x], keep, image)
  {
    var all := xs + [x];
    assert forall i :: 0 <= i < |xs| ==> all[i] == xs[i];
  }

  lemma Added<T, U>(places: seq<nat>, ys: seq<U>, xs: seq<T>, x: T, keep: T -> bool, image: T -> U)
    requires KeptAt(places, ys, xs, keep, image) && keep(x)
    ensures KeptAt(places + [|xs|], ys + [image(x)], xs + [x], keep, image)
  {
    var all, more := xs + [x], places + [|xs|];
    assert forall i :: 0 <= i < |xs| ==> all[i] == xs[i];
    assert forall k :: 0 <= k < |places| ==> more[k] == places[k];
    forall i | 0 <= i < |all| && keep(all[i])
      ensures i in more
    {
      if i == |xs| {
        assert more[|places|] == i;
      } else {
        assert i in places;
      }
    }
  }

  lemma KeptGrows<T, U>(ys: seq<U>, xs: seq<T>, x: T, keep: T -> bool, image: T -> U)
    requires Kept(ys, xs, keep, image)
    ensures Kept(if keep(x) then ys + [image(x)] else ys, xs + [x], keep, image)
  {
    hide KeptAt;
    var places: seq<nat> :| KeptAt(places, ys, xs, keep, image);
    if keep(x) {
      Added(places, ys, xs, x, keep, image);
    } else {
      Skipped(places, ys, xs, x, keep, image);
    }
  }

  lemma NothingIn(places: seq<nat>)
    ensures places == [] <==> forall i :: i !in places
  {
    if places != [] {
      assert places[0] in places;
    }
  }

  lemma RisingFront(places: seq<nat>)
    requires Rising(places) && places != []
    ensures var last := places[|places| - 1];
            && Rising(places[..|places| - 1])
            && (forall i :: i in places ==> i <= last)
            && forall i :: i in places[..|places| - 1] <==> i in places && i != last
  {
    assert places == places[..|places| - 1] + [places[|places| - 1]];
  }

  lemma {:induction false} SamePlaces(places: seq<nat>, others: seq<nat>)
    requires Rising(places) && Rising(others) && forall i :: i in places <==> i in others
    ensures places == others
  {
    NothingIn(places);
    NothingIn(others);
    if places != [] {
      RisingFront(places);
      RisingFront(others);
      var last, end := places[|places| - 1], others[|others| - 1];
      assert last in places && end in others;
      assert last == end;
      var front, rest := places[..|places| - 1], others[..|others| - 1];
      forall i
        ensures i in front <==> i in rest
      {
        assert i in front <==> i in places && i != last;
        assert i in rest <==> i in others && i != end;
      }
      SamePlaces(front, rest);
      assert places == front + [last] && others == rest + [end];
    }
  }

  /** What is kept is determined. */
  lemma KeptOnce<T, U>(ys: seq<U>, zs: seq<U>, xs: seq<T>, keep: T -> bool, image: T -> U)
    requires Kept(ys, xs, keep, image) && Kept(zs, xs, keep, image)
    ensures ys == zs
  {
    var places: seq<nat> :| KeptAt(places, ys, xs, keep, image);
    var others: seq<nat> :| KeptAt(others, zs, xs, keep, image);
    forall i
      ensures i in places <==> i in others
    {
      if k :| 0 <= k < |places| && places[k] == i {
        assert keep(xs[places[k]]);
      }
      if k :| 0 <= k < |others| && others[k] == i {
        assert keep(xs[others[k]]);
      }
    }
    SamePlaces(places, others);
  }

  lemma SameStart(a: string, b: string, k: nat)
    requires k < |a| && k < |b| && a[..k] == b[..k]
    ensures k > 0 ==> a[0] == b[0]
  {
    if k > 0 {
      assert a[..k][0] == b[..k][0];
    }
  }

  /** The texts agree before some position and are ordered there. */
  ghost predicate FirstDifference(a: string, b: string) {
    exists k :: 0 <= k < |a| && k < |b| && a[..k] == b[..k] && a[k] < b[k]
  }

  lemma DifferLater(a: string, b: string)
    requires a != "" && b != "" && a[0] == b[0]
    ensures FirstDifference(a[1..], b[1..]) <==> FirstDifference(a, b)
    ensures a[1..] <= b[1..] <==> a <= b
  {
    if k :| 0 <= k < |a[1..]| && k < |b[1..]| && a[1..][..k] == b[1..][..k] && a[1..][k] < b[1..][k] {
      assert a[..k + 1] == [a[0]] + a[1..][..k] && b[..k + 1] == [b[0]] + b[1..][..k];
    }
    if k :| 0 <= k < |a| && k < |b| && a[..k] == b[..k] && a[k] < b[k] {
      assert k > 0;
      assert a[1..][..k - 1] == a[..k][1..] && b[1..][..k - 1] == b[..k][1..];
      assert a[1..][k - 1] < b[1..][k - 1];
    }
    assert a == [a[0]] + a[1..] && b == [b[0]] + b[1..];
  }

  /** Texts are ordered like words in a dictionary. */
  lemma {:induction false} LexMeans(a: string, b: string)
    ensures LexLeq(a, b) <==> a <= b || FirstDifference(a, b)
  {
    if a != "" && b != "" {
      if a[0] == b[0] {
        LexMeans(a[1..], b[1..]);
        DifferLater(a, b);
      } else if a[0] < b[0] {
        assert a[..0] == b[..0];
      } else if k :| 0 <= k < |a| && k < |b| && a[..k] == b[..k] && a[k] < b[k] {
        SameStart(a, b, k);
      }
    }
  }

  lemma {:induction false} CountedFromTheEnd(s: string, c: char)
    requires s != ""
    ensures CountChar(s, c) == CountChar(s[..|s| - 1], c) + if s[|s| - 1] == c then 1 else 0
  {
    if |s| > 1 {
      CountedFromTheEnd(s[1..], c);
      assert s[1..][..|s| - 2] == s[..|s| - 1][1..];
    }
  }

  lemma {:induction false} CharsAreCounted(s: string, c: char)
    ensures CountChar(s, c) == |set i | 0 <= i < |s| && s[i] == c|
  {
    var all := set i | 0 <= i < |s| && s[i] == c;
    if s == "" {
      assert all == {};
    } else {
      var n, front := |s| - 1, s[..|s| - 1];
      var before := set i | 0 <= i < n && front[i] == c;
      CharsAreCounted(front, c);
      CountedFromTheEnd(s, c);
      hide CountChar;
      if s[n] == c {
        assert all == before + {n};
      } else {
        assert all == before;
      }
    }
  }

  // ---------------------------------------------------------------- paths

  /** A name between slashes, other than the dot. */
  ghost predicate IsComponent(part: string) { part != "" && part != "." && '/' !in part }

  lemma {:induction false} OneLonePart(part: string)
    requires '/' !in part
    ensures Split(part, '/') == [part]
  {
    if part != "" {
      OneLonePart(part[1..]);
      assert [part[0]] + part[1..] == part;
    }
  }

  lemma {:induction false} SplitAtFirst(part: string, rest: string)
    requires '/' !in part
    ensures Split(part + "/" + rest, '/') == [part] + Split(rest, '/')
  {
    var s := part + "/" + rest;
    if part == "" {
      assert s == "/" + rest && s[1..] == rest;
    } else {
      SplitAtFirst(part[1..], rest);
      assert s[1..] == part[1..] + "/" + rest && s[0] == part[0];
      assert [part[0]] + part[1..] == part;
    }
  }

  lemma {:induction false} SplitOfPath(parts: seq<string>)
    requires parts != [] && forall i :: 0 <= i < |parts| ==> IsComponent(parts[i])
    ensures Split(Join(parts, "/"), '/') == parts && Components(parts) == parts
  {
    if |parts| == 1 {
      OneLonePart(parts[0]);
      assert parts == [parts[0]] && parts[1..] == [];
    } else {
      SplitOfPath(parts[1..]);
      SplitAtFirst(parts[0], Join(parts[1..], "/"));
      assert parts == [parts[0]] + parts[1..];
    }
  }

  lemma RelativePath(parts: seq<string>)
    requires parts != [] && forall i :: 0 <= i < |parts| ==> IsComponent(parts[i])
    ensures Join(parts, "/") != "" && Join(parts, "/")[0] != '/' && PathRoot(Join(parts, "/")) == ""
  {
    assert parts[0][0] in parts[0];
  }

  lemma NothingJoined(separator: string)
    ensures Join([], separator) == ""
  {
  }

  lemma TakenApart(path: string, parts: seq<string>)
    requires parts != [] && Components(Split(path, '/')) == parts
    ensures PathName(path) == parts[|parts| - 1]
    ensures var text := PathRoot(path) + Join(parts[..|parts| - 1], "/");
            ParentDir(path) == if text == "" then "." else text
  {
    hide Split, Components, Join, PathRoot;
  }

  /** The name of a path is its last component, and its directory what comes before, or the dot. */
  lemma PathsAreTakenApart(parts: seq<string>)
    requires parts != [] && forall i :: 0 <= i < |parts| ==> IsComponent(parts[i])
    ensures PathName(Join(parts, "/")) == parts[|parts| - 1]
    ensures ParentDir(Join(parts, "/")) == if |parts| == 1 then "." else Join(parts[..|parts| - 1], "/")
  {
    hide Split, Components, Join, PathRoot, PathName, ParentDir, IsComponent;
    var front := parts[..|parts| - 1];
    SplitOfPath(parts);
    RelativePath(parts);
    TakenApart(Join(parts, "/"), parts);
    assert "" + Join(front, "/") == Join(front, "/");
    if |parts| > 1 {
      RelativePath(front);
    } else {
      assert front == [];
      NothingJoined("/");
    }
  }

  /** So it is below the root, whose slash stays with the directory. */
  lemma AbsolutePathsAreTakenApart(parts: seq<string>)
    requires parts != [] && forall i :: 0 <= i < |parts| ==> IsComponent(parts[i])
    ensures PathName("/" + Join(parts, "/")) == parts[|parts| - 1]
    ensures ParentDir("/" + Join(parts, "/")) == "/" + Join(parts[..|parts| - 1], "/")
  {
    hide Split, Components, Join, PathRoot, PathName, ParentDir, IsComponent;
    BelowTheRoot(parts);
    TakenApart("/" + Join(parts, "/"), parts);
  }

  lemma BelowTheRoot(parts: seq<string>)
    requires parts != [] && forall i :: 0 <= i < |parts| ==> IsComponent(parts[i])
    ensures Components(Split("/" + Join(parts, "/"), '/')) == parts && PathRoot("/" + Join(parts, "/")) == "/"
  {
    hide Split, Components, Join, PathRoot, IsComponent;
    SplitOfPath(parts);
    RelativePath(parts);
    var rest := Join(parts, "/");
    SplitAtFirst("", rest);
    assert "" + "/" + rest == "/" + rest;
    NoEmptyComponent(parts);
    OneSlash(rest);
  }

  lemma OneSlash(rest: string)
    requires rest != "" && rest[0] != '/'
    ensures PathRoot("/" + rest) == "/"
  {
    assert ("/" + rest)[1] == rest[0];
  }

  lemma NoEmptyComponent(parts: seq<string>)
    ensures Components([""] + parts) == Components(parts)
  {
    assert ([""] + parts)[1..] == parts;
  }

  lemma {:induction false} ComponentsFromTheEnd(parts: seq<string>, last: string)
    ensures Components(parts + [last]) == Components(parts) + Components([last])
  {
    if parts != [] {
      ComponentsFromTheEnd(parts[1..], last);
      assert (parts + [last])[1..] == parts[1..] + [last];
    } else {
      assert [] + [last] == [last];
    }
  }

  lemma OneComponent(part: string)
    ensures Components([part]) == if part == "" || part == "." then [] else [part]
  {
    assert [part][1..] == [];
  }

  lemma {:induction false} ComponentsAreCounted(parts: seq<string>)
    ensures |Components(parts)| == |set i | 0 <= i < |parts| && parts[i] != "" && parts[i] != "."|
  {
    var kept := set i | 0 <= i < |parts| && parts[i] != "" && parts[i] != ".";
    if parts == [] {
      assert kept == {};
    } else {
      var n, front := |parts| - 1, parts[..|parts| - 1];
      var before := set i | 0 <= i < n && front[i] != "" && front[i] != ".";
      ComponentsAreCounted(front);
      ComponentsFromTheEnd(front, parts[n]);
      assert parts == front + [parts[n]];
      OneComponent(parts[n]);
      hide Components;
      if parts[n] != "" && parts[n] != "." {
        assert kept == before + {n};
      } else {
        assert kept == before;
      }
    }
  }

  /** Empty components and dots do not count. */
  lemma {:induction false} ComponentsMean(parts: seq<string>, part: string)
    ensures part in Components(parts) <==> part in parts && part != "" && part != "."
    ensures |Components(parts)| == |set i | 0 <= i < |parts| && parts[i] != "" && parts[i] != "."|
  {
    ComponentsAreCounted(parts);
    if parts != [] {
      ComponentsMean(parts[1..], part);
      assert parts == [parts[0]] + parts[1..];
    }
  }

  lemma {:induction false} LastIndexMeans(s: string, c: char)
    ensures LastIndexOf(s, c) == -1 <==> c !in s
    ensures LastIndexOf(s, c) >= 0 ==> s[LastIndexOf(s, c)] == c && c !in s[LastIndexOf(s, c) + 1..]
  {
    if s != "" {
      var front := s[..|s| - 1];
      LastIndexMeans(front, c);
      assert s == front + [s[|s| - 1]];
      if s[|s| - 1] != c && LastIndexOf(front, c) >= 0 {
        assert s[LastIndexOf(s, c) + 1..] == front[LastIndexOf(s, c) + 1..] + [s[|s| - 1]];
      }
    }
  }

  /** The stem of a name with an ending is what stands before its last dot. */
  lemma StemsMean(stem: string, end: string)
    requires IsComponent(stem + "." + end) && stem != "" && end != "" && '.' !in end
    ensures PathStem(stem + "." + end) == stem
  {
    var name := stem + "." + end;
    PathsAreTakenApart([name]);
    assert Join([name], "/") == name;
    LastDot(stem, end);
  }

  lemma {:induction false} LastDot(stem: string, end: string)
    requires '.' !in end
    ensures LastIndexOf(stem + "." + end, '.') == |stem|
  {
    var name := stem + "." + end;
    if end == "" {
      assert name[|name| - 1] == '.';
    } else {
      var front := end[..|end| - 1];
      assert end == front + [end[|end| - 1]];
      assert name[|name| - 1] == end[|end| - 1] && name[..|name| - 1] == stem + "." + front;
      LastDot(stem, front);
    }
  }
}
