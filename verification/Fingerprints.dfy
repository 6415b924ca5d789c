/** Perceptual screenshot fingerprints: hexadecimal text compared by Hamming distance. */
module Fingerprints {
  import opened Text

  function HexDigit(c: char): Option<nat> {
    if '0' <= c <= '9' then Some((c as int) - ('0' as int))
    else if 'a' <= c <= 'f' then Some((c as int) - ('a' as int) + 10)
    else if 'A' <= c <= 'F' then Some((c as int) - ('A' as int) + 10)
    else None
  }

  /** Hex digits with single underscores between them, as int(text, 16) accepts them. */
  function HexBody(s: string): Option<nat> {
    if s == "" then None
    else match HexDigit(s[|s| - 1])
      case None => None
      case Some(low) =>
        var front := s[..|s| - 1];
        if front == "" then Some(low)
        else
          match HexBody(if front[|front| - 1] == '_' then front[..|front| - 1] else front)
          case None => None
          case Some(high) => Some(16 * high + low)
  }

  function HexMagnitude(s: string): Option<nat> {
    if |s| >= 2 && s[0] == '0' && LowerChar(s[1]) == 'x' then
      HexBody(if |s| > 2 && s[2] == '_' then s[3..] else s[2..])
    else HexBody(s)
  }

  /** int(s, 16) on stripped text; None stands for ValueError. */
  function HexValue(s: string): Option<int> {
    if s != "" && s[0] == '-' then
      match HexMagnitude(s[1..]) case None => None case Some(n) => var value: int := n; Some(-value)
    else
      match HexMagnitude(if s != "" && s[0] == '+' then s[1..] else s) case None => None case Some(n) => Some(n)
  }

  function XorNat(a: nat, b: nat): nat
    decreases a + b
  {
    if a == 0 && b == 0 then 0
    else 2 * XorNat(a / 2, b / 2) + (if a % 2 != b % 2 then 1 else 0)
  }

  /** Python's ^ on unbounded integers (two's complement with infinite sign extension). */
  function Xor(a: int, b: int): int {
    if a >= 0 && b >= 0 then XorNat(a, b)
    else if a < 0 && b < 0 then XorNat(-a - 1, -b - 1)
    else
      var x: int := if a < 0 then XorNat(-a - 1, b) else XorNat(a, -b - 1);
      -x - 1
  }

  function BitCount(n: nat): nat {
    if n == 0 then 0 else n % 2 + BitCount(n / 2)
  }

  /** (a ^ b).bit_count(): the number of ones in the absolute value. */
  function Distance(a: int, b: int): nat {
    var x := Xor(a, b);
    BitCount(if x < 0 then -x else x)
  }

  /** max(8, int(length * 4 * 0.04)): four percent of the bits, at least eight. */
  function Threshold(length: nat): nat {
    var bits := length * 4 / 25;
    if bits > 8 then bits else 8
  }

  /** Both values parse, have one length, and differ in at most the threshold of bits. */
  predicate Near(a: string, b: string) {
    |a| == |b| && HexValue(a).Some? && HexValue(b).Some?
    && Distance(HexValue(a).value, HexValue(b).value) <= Threshold(|a|)
  }

  lemma XorNatSymmetric(a: nat, b: nat)
    ensures XorNat(a, b) == XorNat(b, a)
    decreases a + b
  {
  }

  lemma XorNatSelf(a: nat)
    ensures XorNat(a, a) == 0
  {
  }

  lemma NearSymmetric(a: string, b: string)
    ensures Near(a, b) == Near(b, a)
  {
    hide HexValue, Threshold, BitCount;
    if HexValue(a).Some? && HexValue(b).Some? {
      var x, y := HexValue(a).value, HexValue(b).value;
      XorNatSymmetric(if x < 0 then -x - 1 else x, if y < 0 then -y - 1 else y);
    }
  }

  lemma NearReflexive(a: string)
    requires HexValue(a).Some?
    ensures Near(a, a)
  {
    var x := HexValue(a).value;
    XorNatSelf(if x < 0 then -x - 1 else x);
  }

  // ---------------------------------------------------------------- what a distance counts

  /** The i-th binary digit, of negative numbers in two's complement. */
  predicate Bit(n: int, i: nat)
    decreases i
  {
    if i == 0 then n % 2 == 1 else Bit(n / 2, i - 1)
  }

  lemma XorHalf(a: nat, b: nat)
    ensures XorNat(a, b) / 2 == XorNat(a / 2, b / 2)
    ensures XorNat(a, b) % 2 == if a % 2 != b % 2 then 1 else 0
  {
  }

  lemma {:induction false} XorNatBits(a: nat, b: nat, i: nat)
    ensures Bit(XorNat(a, b), i) <==> Bit(a, i) != Bit(b, i)
    decreases i
  {
    hide XorNat;
    XorHalf(a, b);
    if i > 0 {
      XorNatBits(a / 2, b / 2, i - 1);
    }
  }

  lemma {:induction false} ComplementBits(n: int, i: nat)
    ensures Bit(-n - 1, i) <==> !Bit(n, i)
    decreases i
  {
    assert (-n - 1) / 2 == -(n / 2) - 1 && (-n - 1) % 2 == 1 - n % 2;
    if i > 0 {
      ComplementBits(n / 2, i - 1);
    }
  }

  /** Exclusive or sets exactly the bits in which its operands differ, whatever their signs. */
  lemma XorBits(a: int, b: int, i: nat)
    ensures Bit(Xor(a, b), i) <==> Bit(a, i) != Bit(b, i)
  {
    hide XorNat;
    var p: nat := if a < 0 then -a - 1 else a;
    var q: nat := if b < 0 then -b - 1 else b;
    XorNatBits(p, q, i);
    ComplementBits(a, i);
    ComplementBits(b, i);
    ComplementBits(XorNat(p, q), i);
  }

  lemma {:induction false} NoHighBits(n: nat, i: nat)
    requires Bit(n, i)
    ensures i < n
    decreases i
  {
    if i > 0 {
      NoHighBits(n / 2, i - 1);
    }
  }

  function Up(places: set<nat>): set<nat> { set i | i in places :: i + 1 }

  lemma {:induction false} UpSize(places: set<nat>)
    ensures |Up(places)| == |places|
  {
    if places != {} {
      var i :| i in places;
      var rest := places - {i};
      UpSize(rest);
      UpOfMore(rest, i);
      assert rest + {i} == places;
    }
  }

  lemma UpOfMore(places: set<nat>, i: nat)
    requires i !in places
    ensures |Up(places + {i})| == |Up(places)| + 1
  {
    var before, after := Up(places), Up(places + {i});
    forall j: nat
      ensures j in after <==> j in before || j == i + 1
    {
      if j == i + 1 {
        assert i in places + {i};
      }
    }
    assert i + 1 !in before;
    assert after == before + {i + 1};
  }

  lemma HigherPlaces(n: nat, half: set<nat>, ones: set<nat>)
    requires forall i: nat :: i in ones <==> Bit(n, i)
    requires forall i: nat :: i in half <==> Bit(n / 2, i)
    ensures ones - {0} == Up(half)
  {
    forall i: nat
      ensures i in ones - {0} <==> i in Up(half)
    {
      if i > 0 {
        assert Bit(n, i) == Bit(n / 2, i - 1);
        assert i - 1 in half <==> i in ones;
      }
    }
  }

  /** The number of ones is the number of places that hold one. */
  lemma {:induction false} BitsAreCounted(n: nat, ones: set<nat>)
    requires forall i: nat :: i in ones <==> Bit(n, i)
    ensures BitCount(n) == |ones|
    decreases n
  {
    if n == 0 {
      forall i: nat
        ensures i !in ones
      {
        if i in ones {
          NoHighBits(0, i);
        }
      }
      assert ones == {};
    } else {
      var half := set i: nat | i < n / 2 && Bit(n / 2, i);
      forall i: nat
        ensures i in half <==> Bit(n / 2, i)
      {
        if Bit(n / 2, i) {
          NoHighBits(n / 2, i);
        }
      }
      BitsAreCounted(n / 2, half);
      UpSize(half);
      HigherPlaces(n, half, ones);
      assert 0 in ones <==> n % 2 == 1;
      if 0 in ones {
        assert |ones| == |ones - {0}| + 1;
      } else {
        assert ones - {0} == ones;
      }
    }
  }

  /** The distance of two fingerprints is the number of bits in which they differ. */
  lemma DistanceCountsDifferences(a: int, b: int, places: set<nat>)
    requires a >= 0 <==> b >= 0
    requires forall i: nat :: i in places <==> Bit(a, i) != Bit(b, i)
    ensures Distance(a, b) == |places|
  {
    hide BitCount, XorNat;
    assert Xor(a, b) >= 0;
    forall i: nat
      ensures i in places <==> Bit(Xor(a, b), i)
    {
      XorBits(a, b, i);
    }
    BitsAreCounted(Xor(a, b), places);
  }

  const HEX_DIGITS: string := "0123456789abcdef"

  /** Hex digits and nothing else, in lower case. */
  ghost predicate PlainHex(text: string) { text != "" && forall i :: 0 <= i < |text| ==> text[i] in HEX_DIGITS }

  lemma DigitsOfHex(k: nat)
    requires k < 16
    ensures |HEX_DIGITS| == 16 && HexDigit(HEX_DIGITS[k]) == Some(k)
  {
    assert HEX_DIGITS == "0123456789abcdef";
    assert HEX_DIGITS[0] == '0' && HEX_DIGITS[1] == '1' && HEX_DIGITS[2] == '2' && HEX_DIGITS[3] == '3';
    assert HEX_DIGITS[4] == '4' && HEX_DIGITS[5] == '5' && HEX_DIGITS[6] == '6' && HEX_DIGITS[7] == '7';
    assert HEX_DIGITS[8] == '8' && HEX_DIGITS[9] == '9' && HEX_DIGITS[10] == 'a' && HEX_DIGITS[11] == 'b';
    assert HEX_DIGITS[12] == 'c' && HEX_DIGITS[13] == 'd' && HEX_DIGITS[14] == 'e' && HEX_DIGITS[15] == 'f';
  }

  lemma PlainCharacters(text: string, i: nat)
    requires PlainHex(text) && i < |text|
    ensures text[i] != 'x' && text[i] != 'X' && text[i] != '_' && text[i] != '+' && text[i] != '-'
    ensures HexDigit(text[i]).Some?
  {
    var k :| 0 <= k < |HEX_DIGITS| && HEX_DIGITS[k] == text[i];
    DigitsOfHex(k);
  }

  lemma {:induction false} PlainHexIsBody(text: string)
    requires PlainHex(text)
    ensures HexValue(text).Some? && HexBody(text) == HexValue(text) && HexValue(text).value >= 0
  {
    PlainCharacters(text, 0);
    if |text| >= 2 {
      PlainCharacters(text, 1);
    }
    assert HexMagnitude(text) == HexBody(text);
    PlainHexParses(text);
  }

  lemma {:induction false} PlainHexParses(text: string)
    requires PlainHex(text)
    ensures HexBody(text).Some?
  {
    PlainCharacters(text, |text| - 1);
    if |text| > 1 {
      var front := text[..|text| - 1];
      PlainCharacters(text, |text| - 2);
      assert front[|front| - 1] == text[|text| - 2];
      assert PlainHex(front);
      PlainHexParses(front);
    }
  }

  lemma LongerHex(text: string, c: char)
    requires c in HEX_DIGITS && (text == "" || PlainHex(text))
    ensures PlainHex(text + [c])
  {
    hide HEX_DIGITS;
    var longer := text + [c];
    assert longer[|text|] == c;
    assert forall i :: 0 <= i < |text| ==> longer[i] == text[i];
  }

  lemma BodyOfLonger(text: string, c: char, k: nat)
    requires HexDigit(c) == Some(k) && (text == "" || (text[|text| - 1] != '_' && HexBody(text).Some?))
    ensures HexBody(text + [c]) == Some((if text == "" then 0 else 16 * HexBody(text).value) + k)
  {
    hide HexDigit, HexBody;
    var longer := text + [c];
    assert longer[..|longer| - 1] == text && longer[|longer| - 1] == c;
    HexStep(longer);
  }

  lemma HexStep(s: string)
    requires s != "" && HexDigit(s[|s| - 1]).Some?
    ensures var front, low := s[..|s| - 1], HexDigit(s[|s| - 1]).value;
            && (front == "" ==> HexBody(s) == Some(low))
            && (front != "" && front[|front| - 1] != '_' ==>
                  HexBody(s) == match HexBody(front) case None => None case Some(high) => Some(16 * high + low))
  {
    hide HexDigit;
  }

  /** A text of hex digits is read place by place, sixteen to the place. */
  lemma HexIsReadInPlaces(text: string, k: nat)
    requires k < |HEX_DIGITS| == 16 && (text == "" || PlainHex(text))
    ensures text == "" || HexValue(text).Some?
    ensures HexValue(text + [HEX_DIGITS[k]])
            == Some((if text == "" then 0 else 16 * HexValue(text).value) + k)
  {
    hide HEX_DIGITS, HexDigit, HexBody, HexValue, PlainHex;
    DigitsOfHex(k);
    LongerHex(text, HEX_DIGITS[k]);
    PlainHexIsBody(text + [HEX_DIGITS[k]]);
    if text != "" {
      PlainHexIsBody(text);
      PlainCharacters(text, |text| - 1);
    }
    BodyOfLonger(text, HEX_DIGITS[k], k);
  }

  /** Signs, a prefix, capital digits and single underscores between digits are read as Python reads them. */
  lemma HexSpellings(text: string, k: nat)
    requires PlainHex(text) && k < 16
    ensures HexValue(text).Some?
    ensures HexValue("+" + text) == HexValue(text) && HexValue("-" + text) == Some(-HexValue(text).value)
    ensures HexValue("0x" + text) == HexValue(text) && HexValue("0X_" + text) == HexValue(text)
    ensures HexDigit(['0', '1', '2', '3', '4', '5', '6', '7', '8', '9', 'A', 'B', 'C', 'D', 'E', 'F'][k]) == Some(k)
    ensures |HEX_DIGITS| == 16 && HexBody(text + "_" + [HEX_DIGITS[k]]) == HexBody(text + [HEX_DIGITS[k]])
  {
    hide HexBody, HEX_DIGITS, PlainHex, HexDigit;
    PlainHexIsBody(text);
    PlainIsMagnitude(text);
    assert HexMagnitude(text) == HexBody(text);
    assert ("+" + text)[1..] == text && ("-" + text)[1..] == text;
    Prefixed(text);
    Underscored(text, k);
    assert HexDigit(['0', '1', '2', '3', '4', '5', '6', '7', '8', '9', 'A', 'B', 'C', 'D', 'E', 'F'][k]) == Some(k) by {
      CapitalDigits(k);
    }
  }

  lemma CapitalDigits(k: nat)
    requires k < 16
    ensures HexDigit(['0', '1', '2', '3', '4', '5', '6', '7', '8', '9', 'A', 'B', 'C', 'D', 'E', 'F'][k]) == Some(k)
  {
  }

  lemma PlainIsMagnitude(text: string)
    requires PlainHex(text)
    ensures HexMagnitude(text) == HexBody(text) && text[0] != '_'
  {
    hide HexBody, HEX_DIGITS;
    PlainCharacters(text, 0);
    if |text| >= 2 {
      PlainCharacters(text, 1);
    }
  }

  lemma Prefixed(text: string)
    requires PlainHex(text)
    ensures HexValue("0x" + text) == HexValue(text) && HexValue("0X_" + text) == HexValue(text)
  {
    hide HexBody, HEX_DIGITS, HexDigit, PlainHex;
    PlainHexIsBody(text);
    PlainIsMagnitude(text);
    assert PlainHex(text) ==> text != "" by { hide *; PlainIsVisible(text); }
    var short, long := "0x" + text, "0X_" + text;
    assert short[0] == '0' && short[1] == 'x' && short[2] == text[0] && short[2..] == text;
    assert long[0] == '0' && long[1] == 'X' && long[2] == '_' && long[3..] == text;
  }

  lemma PlainIsVisible(text: string)
    requires PlainHex(text)
    ensures text != ""
  {
  }

  lemma Underscored(text: string, k: nat)
    requires PlainHex(text) && k < 16
    ensures |HEX_DIGITS| == 16 && HexBody(text + "_" + [HEX_DIGITS[k]]) == HexBody(text + [HEX_DIGITS[k]])
  {
    hide HEX_DIGITS, HexDigit, HexBody;
    DigitsOfHex(k);
    PlainCharacters(text, |text| - 1);
    var c := HEX_DIGITS[k];
    assert (text + [c])[..|text|] == text;
    var long := text + "_" + [c];
    assert long[..|long| - 2] == text && long[|long| - 2] == '_' && long[|long| - 1] == c;
    HexStep(text + [c]);
    UnderscoreStep(long);
  }

  lemma UnderscoreStep(s: string)
    requires |s| >= 3 && s[|s| - 2] == '_' && HexDigit(s[|s| - 1]).Some?
    ensures HexBody(s) == match HexBody(s[..|s| - 2])
                          case None => None
                          case Some(high) => Some(16 * high + HexDigit(s[|s| - 1]).value)
  {
    hide HexDigit;
    assert s[..|s| - 1][..|s| - 2] == s[..|s| - 2];
  }

  /** The tolerance: four in a hundred bits of the text's digits, rounded down, and at least eight. */
  lemma ToleranceMeans(length: nat, n: nat)
    ensures n <= Threshold(length) <==> n <= 8 || 100 * n <= 4 * (4 * length)
  {
  }
}
