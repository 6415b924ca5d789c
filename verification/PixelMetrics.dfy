/** The pixel-counting loops behind the screenshot composition score. */
module PixelMetrics {

  type Byte = n: int | 0 <= n < 256

  datatype Pixel = Pixel(red: Byte, green: Byte, blue: Byte)

  /** A colour reduced to eight steps per channel. */
  datatype Colour = Colour(red: nat, green: nat, blue: nat)

  /** Two neighbouring pixels: one and the next in its row, or one and the one below. */
  datatype Pair = Right(x: nat, y: nat) | Down(x: nat, y: nat)

  // ---------------------------------------------------------------- edges

  function Pairs(width: nat, height: nat): set<Pair> {
    (set x: nat, y: nat | x < width && y < height && x + 1 < width :: Right(x, y))
    + (set x: nat, y: nat | x < width && y < height && y + 1 < height :: Down(x, y))
  }

  /** The neighbours whose first pixel the scan has reached: all rows above `row`, and `row` up to `column`. */
  function Scanned(width: nat, height: nat, column: nat, row: nat): set<Pair> {
    set p | p in Pairs(width, height) && (p.y < row || (p.y == row && p.x < column))
  }

  lemma InGrid(width: nat, height: nat, x: nat, y: nat)
    requires x < width && y < height
    ensures 0 <= y * width + x < width * height
    ensures y + 1 < height ==> y * width + x + width < width * height
  {
    assert (y + 1) * width <= height * width;
    if y + 1 < height {
      assert (y + 2) * width <= height * width;
    }
  }

  function Gap(a: real, b: real): real { if a >= b then a - b else b - a }

  /** Whether the luminance step between two neighbours counts as an edge. */
  predicate IsEdge(luminance: seq<real>, width: nat, height: nat, p: Pair)
    requires |luminance| == width * height && p in Pairs(width, height)
  {
    InGrid(width, height, p.x, p.y);
    if p.Right? then
      InGrid(width, height, p.x + 1, p.y);
      Gap(luminance[p.y * width + p.x], luminance[p.y * width + p.x + 1]) >= 18.0
    else Gap(luminance[p.y * width + p.x], luminance[p.y * width + p.x + width]) >= 18.0
  }

  function Edges(luminance: seq<real>, width: nat, height: nat, pairs: set<Pair>): set<Pair>
    requires |luminance| == width * height && pairs <= Pairs(width, height)
  {
    set p | p in pairs && IsEdge(luminance, width, height, p)
  }

  /** An edge is a pair of neighbours whose luminances differ by 18 or more, either way. */
  lemma EdgesMean(luminance: seq<real>, width: nat, height: nat, x: nat, y: nat)
    requires |luminance| == width * height && x < width && y < height
    ensures 0 <= y * width + x < |luminance|
    ensures x + 1 < width ==> 0 <= y * width + x + 1 < |luminance|
                              && var step := luminance[y * width + x + 1] - luminance[y * width + x];
                                 (Right(x, y) in Edges(luminance, width, height, Pairs(width, height))
                                  <==> step >= 18.0 || step <= -18.0)
    ensures y + 1 < height ==> 0 <= y * width + x + width < |luminance|
                               && var step := luminance[y * width + x + width] - luminance[y * width + x];
                                  (Down(x, y) in Edges(luminance, width, height, Pairs(width, height))
                                   <==> step >= 18.0 || step <= -18.0)
  {
    InGrid(width, height, x, y);
    if x + 1 < width {
      InGrid(width, height, x + 1, y);
    }
  }

  lemma EdgesOfMore(luminance: seq<real>, width: nat, height: nat, pairs: set<Pair>, p: Pair)
    requires |luminance| == width * height && pairs <= Pairs(width, height)
    requires p in Pairs(width, height) && p !in pairs
    ensures Edges(luminance, width, height, pairs + {p})
            == Edges(luminance, width, height, pairs) + if IsEdge(luminance, width, height, p) then {p} else {}
    ensures p !in Edges(luminance, width, height, pairs)
  {
    hide IsEdge, Pairs;
  }

  lemma ScanStep(width: nat, height: nat, x: nat, y: nat)
    requires x < width && y < height
    ensures Scanned(width, height, x + 1, y)
            == Scanned(width, height, x, y) + (if x + 1 < width then {Right(x, y)} else {})
               + if y + 1 < height then {Down(x, y)} else {}
    ensures Right(x, y) !in Scanned(width, height, x, y) && Down(x, y) !in Scanned(width, height, x, y)
    ensures Right(x, y) in Pairs(width, height) <==> x + 1 < width
    ensures Down(x, y) in Pairs(width, height) <==> y + 1 < height
  {
  }

  lemma ScanEnds(width: nat, height: nat, y: nat)
    ensures Scanned(width, height, 0, 0) == {}
    ensures Scanned(width, height, width, y) == Scanned(width, height, 0, y + 1)
    ensures Scanned(width, height, 0, height) == Pairs(width, height)
  {
  }

  /** Comparisons made once `row` rows and `column` pixels of the next are scanned. */
  function Compared(width: nat, height: nat, column: nat, row: nat): int {
    row * (width - 1) + (if row < height then row else height - 1) * width
    + (if column < width then column else width - 1) + (if row + 1 < height then column else 0)
  }

  lemma RowCompared(width: nat, height: nat, row: nat)
    requires row < height && width >= 1
    ensures Compared(width, height, width, row) == Compared(width, height, 0, row + 1)
  {
    assert (row + 1) * (width - 1) == row * (width - 1) + (width - 1);
    assert (row + 1) * width == row * width + width;
  }

  lemma GridCompared(width: nat, height: nat)
    requires width >= 1 && height >= 1
    ensures Compared(width, height, 0, height) == 2 * width * height - width - height
  {
    assert height * (width - 1) == height * width - height;
    assert (height - 1) * width == height * width - width;
  }

  /** The counters after the pixels before (`column`, `row`): the pairs scanned, and the edges among them. */
  ghost predicate Counted(luminance: seq<real>, width: nat, height: nat, column: nat, row: nat,
                          edges: nat, comparisons: nat)
    requires |luminance| == width * height
  {
    && Scanned(width, height, column, row) <= Pairs(width, height)
    && comparisons == |Scanned(width, height, column, row)| == Compared(width, height, column, row)
    && edges == |Edges(luminance, width, height, Scanned(width, height, column, row))|
  }

  lemma CountedPixel(luminance: seq<real>, width: nat, height: nat, x: nat, y: nat, edges: nat, comparisons: nat)
    requires |luminance| == width * height && x < width && y < height
    requires Counted(luminance, width, height, x, y, edges, comparisons)
    ensures var right := x + 1 < width && Right(x, y) in Pairs(width, height);
            var down := y + 1 < height && Down(x, y) in Pairs(width, height);
            && right == (x + 1 < width) && down == (y + 1 < height)
            && Counted(luminance, width, height, x + 1, y,
                       edges + (if right && IsEdge(luminance, width, height, Right(x, y)) then 1 else 0)
                       + (if down && IsEdge(luminance, width, height, Down(x, y)) then 1 else 0),
                       comparisons + (if right then 1 else 0) + if down then 1 else 0)
  {
    hide Pairs, Scanned, IsEdge, Edges, Compared;
    ScanStep(width, height, x, y);
    OneMoreCompared(width, height, x, y);
    var seen := Scanned(width, height, x, y);
    EdgesOfOptional(luminance, width, height, seen, Right(x, y), x + 1 < width);
    var more := seen + if x + 1 < width then {Right(x, y)} else {};
    EdgesOfOptional(luminance, width, height, more, Down(x, y), y + 1 < height);
  }

  lemma EdgesOfOptional(luminance: seq<real>, width: nat, height: nat, seen: set<Pair>, p: Pair, present: bool)
    requires |luminance| == width * height && seen <= Pairs(width, height) && p !in seen
    requires present <==> p in Pairs(width, height)
    ensures var more := seen + if present then {p} else {};
            && more <= Pairs(width, height)
            && |more| == |seen| + (if present then 1 else 0)
            && |Edges(luminance, width, height, more)|
               == |Edges(luminance, width, height, seen)| + if present && IsEdge(luminance, width, height, p) then 1 else 0
  {
    hide Pairs, IsEdge, Edges;
    if present {
      EdgesOfMore(luminance, width, height, seen, p);
    } else {
      assert seen + {} == seen;
    }
  }

  lemma CountedRow(luminance: seq<real>, width: nat, height: nat, y: nat, edges: nat, comparisons: nat)
    requires |luminance| == width * height && width >= 1 && y < height
    requires Counted(luminance, width, height, width, y, edges, comparisons)
    ensures Counted(luminance, width, height, 0, y + 1, edges, comparisons)
  {
    hide Pairs, Scanned, IsEdge, Edges, Compared;
    ScanEnds(width, height, y);
    RowCompared(width, height, y);
  }

  /** Every pair of neighbours is compared exactly once, and the edges are the pairs with a luminance step of 18. */
  method CountEdges(luminance: seq<real>, width: nat, height: nat) returns (edges: nat, comparisons: nat)
    requires width >= 2 && height >= 2 && |luminance| == width * height
    ensures comparisons == |Pairs(width, height)| == 2 * width * height - width - height
    ensures edges == |Edges(luminance, width, height, Pairs(width, height))| <= comparisons
  {
    hide Pairs, Scanned, Edges, Compared, Counted;
    edges, comparisons := 0, 0;
    NothingYet(luminance, width, height);
    for y := 0 to height
      invariant Counted(luminance, width, height, 0, y, edges, comparisons)
    {
      for x := 0 to width
        invariant Counted(luminance, width, height, x, y, edges, comparisons)
      {
        CountedPixel(luminance, width, height, x, y, edges, comparisons);
        InGrid(width, height, x, y);
        var index := y * width + x;
        if x + 1 < width {
          InGrid(width, height, x + 1, y);
          comparisons := comparisons + 1;
          edges := edges + if Gap(luminance[index], luminance[index + 1]) >= 18.0 then 1 else 0;
        }
        if y + 1 < height {
          comparisons := comparisons + 1;
          edges := edges + if Gap(luminance[index], luminance[index + width]) >= 18.0 then 1 else 0;
        }
      }
      CountedRow(luminance, width, height, y, edges, comparisons);
    }
    AllCounted(luminance, width, height, edges, comparisons);
  }

  lemma AllCounted(luminance: seq<real>, width: nat, height: nat, edges: nat, comparisons: nat)
    requires |luminance| == width * height && width >= 1 && height >= 1
    requires Counted(luminance, width, height, 0, height, edges, comparisons)
    ensures comparisons == |Pairs(width, height)| == 2 * width * height - width - height
    ensures edges == |Edges(luminance, width, height, Pairs(width, height))| <= comparisons
  {
    hide Pairs, Scanned, IsEdge, Edges, Compared;
    ScanEnds(width, height, height);
    GridCompared(width, height);
    EdgesArePairs(luminance, width, height);
  }

  lemma NothingYet(luminance: seq<real>, width: nat, height: nat)
    requires |luminance| == width * height && width >= 1 && height >= 1
    ensures Counted(luminance, width, height, 0, 0, 0, 0)
  {
    hide Pairs, IsEdge;
    ScanEnds(width, height, 0);
    assert Edges(luminance, width, height, {}) == {};
  }

  lemma OneMoreCompared(width: nat, height: nat, x: nat, y: nat)
    requires x < width
    ensures Compared(width, height, x + 1, y)
            == Compared(width, height, x, y) + (if x + 1 < width then 1 else 0) + if y + 1 < height then 1 else 0
  {
  }

  lemma EdgesArePairs(luminance: seq<real>, width: nat, height: nat)
    requires |luminance| == width * height
    ensures |Edges(luminance, width, height, Pairs(width, height))| <= |Pairs(width, height)|
  {
    hide Pairs, IsEdge;
    SubsetIsSmaller(Edges(luminance, width, height, Pairs(width, height)), Pairs(width, height));
  }

  lemma {:induction false} SubsetIsSmaller<T>(a: set<T>, b: set<T>)
    requires a <= b
    ensures |a| <= |b|
  {
    if a != {} {
      var x :| x in a;
      SubsetIsSmaller(a - {x}, b - {x});
    }
  }

  // ---------------------------------------------------------------- the quantised histogram

  function Quantised(p: Pixel): Colour { Colour(p.red / 32, p.green / 32, p.blue / 32) }

  ghost predicate Counts(counts: map<Colour, nat>, quantised: seq<Colour>) {
    && (forall c :: c in counts <==> c in quantised)
    && forall c :: c in counts ==> counts[c] == multiset(quantised)[c]
  }

  ghost predicate IsMaximum(most: nat, counts: map<Colour, nat>) {
    (exists c :: c in counts && counts[c] == most) && forall c :: c in counts ==> counts[c] <= most
  }

  method Histogram(pixels: seq<Pixel>) returns (counts: map<Colour, nat>, quantised: seq<Colour>)
    ensures |quantised| == |pixels| && forall i :: 0 <= i < |pixels| ==> quantised[i] == Quantised(pixels[i])
    ensures Counts(counts, quantised)
  {
    hide Quantised;
    quantised := seq(|pixels|, i requires 0 <= i < |pixels| => Quantised(pixels[i]));
    counts := map[];
    for i := 0 to |quantised|
      invariant Counts(counts, quantised[..i])
    {
      var colour := quantised[i];
      assert quantised[..i + 1] == quantised[..i] + [colour];
      counts := counts[colour := (if colour in counts then counts[colour] else 0) + 1];
    }
    assert quantised[..|quantised|] == quantised;
  }

  /** max(counts.values()) */
  method Dominant(counts: map<Colour, nat>) returns (most: nat)
    requires counts.Keys != {}
    ensures IsMaximum(most, counts)
  {
    var rest := counts.Keys;
    var first :| first in rest;
    most := counts[first];
    rest := rest - {first};
    while rest != {}
      invariant rest <= counts.Keys
      invariant exists c :: c in counts && counts[c] == most
      invariant forall c :: c in counts && c !in rest ==> counts[c] <= most
      decreases |rest|
    {
      var c :| c in rest;
      if counts[c] > most {
        most := counts[c];
      }
      rest := rest - {c};
    }
  }

  function Code(c: Colour): nat { 64 * c.red + 8 * c.green + c.blue }

  predicate InCube(c: Colour) { c.red < 8 && c.green < 8 && c.blue < 8 }

  lemma {:induction false} FewCodes(codes: set<nat>, n: nat)
    requires forall k :: k in codes ==> k < n
    ensures |codes| <= n
  {
    if n == 0 {
      assert codes == {};
    } else {
      FewCodes(codes - {n - 1}, n - 1);
    }
  }

  lemma {:induction false} CodesSeparateColours(colours: set<Colour>)
    requires forall c :: c in colours ==> InCube(c)
    ensures |set c | c in colours :: Code(c)| == |colours|
  {
    if colours != {} {
      var c :| c in colours;
      var rest := colours - {c};
      CodesSeparateColours(rest);
      var codes := set d | d in rest :: Code(d);
      forall d | d in rest
        ensures Code(d) != Code(c)
      {
        OneColourPerCode(c, d);
      }
      assert (set d | d in colours :: Code(d)) == codes + {Code(c)};
    }
  }

  lemma OneColourPerCode(c: Colour, d: Colour)
    requires InCube(c) && InCube(d)
    ensures Code(c) == Code(d) ==> c == d
  {
    if Code(c) == Code(d) {
      LastDigit(8 * c.red + c.green, c.blue, 8 * d.red + d.green, d.blue);
      LastDigit(c.red, c.green, d.red, d.green);
    }
  }

  lemma LastDigit(a: int, low: int, b: int, other: int)
    requires 0 <= low < 8 && 0 <= other < 8 && 8 * a + low == 8 * b + other
    ensures a == b && low == other
  {
  }

  /** Eight steps per channel leave room for at most 512 colours. */
  lemma AtMost512Colours(colours: set<Colour>)
    requires forall c :: c in colours ==> InCube(c)
    ensures |colours| <= 512
  {
    CodesSeparateColours(colours);
    FewCodes(set c | c in colours :: Code(c), 512);
  }

  /** If no colour occurs more than `most` times, `most` times the number of colours covers all pixels. */
  lemma {:induction false} Pigeonhole(colours: set<Colour>, m: multiset<Colour>, most: nat)
    requires forall c :: c in m ==> c in colours && m[c] <= most
    ensures |m| <= |colours| * most
    decreases |colours|
  {
    if colours == {} {
      assert m == multiset{};
    } else {
      var c :| c in colours;
      var rest := m[c := 0];
      assert |m| == |rest| + m[c];
      Pigeonhole(colours - {c}, rest, most);
      assert |colours| * most == (|colours| - 1) * most + most;
    }
  }

  lemma MultiplicityFits(m: multiset<Colour>, c: Colour)
    ensures m[c] <= |m|
  {
    assert |m[c := 0]| + m[c] == |m|;
  }

  lemma FewTimes(a: nat, most: nat)
    requires a <= 512
    ensures a * most <= 512 * most
  {
  }

  /** The dominant colour holds at least one pixel in 512, and at most all of them. */
  lemma DominantShare(quantised: seq<Colour>, counts: map<Colour, nat>, most: nat)
    requires forall c :: c in quantised ==> InCube(c)
    requires Counts(counts, quantised) && IsMaximum(most, counts)
    ensures 1 <= |counts.Keys| <= 512
    ensures |quantised| <= 512 * most && most <= |quantised|
  {
    hide InCube;
    var m := multiset(quantised);
    AtMost512Colours(counts.Keys);
    assert forall c :: c in m <==> c in quantised;
    Pigeonhole(counts.Keys, m, most);
    FewTimes(|counts.Keys|, most);
    var c :| c in counts && counts[c] == most;
    MultiplicityFits(m, c);
    assert c in counts.Keys;
  }

  // ---------------------------------------------------------------- the score

  function Score(value: real, maximum: real): (s: real)
    ensures 0.0 <= s <= 1.0
    ensures maximum > 0.0 ==> (s == 1.0 <==> value >= maximum) && (s == 0.0 <==> value <= 0.0)
    ensures 0.0 <= value <= maximum && maximum > 0.0 ==> s * maximum == value
  {
    if maximum <= 0.0 then 0.0
    else
      Quotient(value, maximum);
      if value / maximum < 0.0 then 0.0 else if value / maximum > 1.0 then 1.0 else value / maximum
  }

  lemma Quotient(value: real, maximum: real)
    requires maximum > 0.0
    ensures value / maximum >= 1.0 <==> value >= maximum
    ensures value / maximum <= 0.0 <==> value <= 0.0
  {
    var q := value / maximum;
    assert q * maximum == value;
    if q >= 1.0 {
      assert (q - 1.0) * maximum >= 0.0;
    } else {
      assert (1.0 - q) * maximum > 0.0;
    }
    if q <= 0.0 {
      assert (-q) * maximum >= 0.0;
    } else {
      assert q * maximum > 0.0;
    }
  }

  datatype Metrics = Metrics(uniqueColours: nat, edgeDensity: real, dominantFraction: real, clippedFraction: real,
                             composition: real)

  function Share(part: nat, whole: nat): real
    requires whole > 0
  {
    part as real / whole as real
  }

  lemma ShareIsFraction(part: nat, whole: nat)
    requires whole > 0 && part <= whole
    ensures 0.0 <= Share(part, whole) <= 1.0
  {
    var p, w := part as real, whole as real;
    Quotient(p, w);
    if p < w {
      assert !(p / w >= 1.0);
    } else {
      assert p == w && p / w == 1.0;
    }
  }

  lemma LargeShare(part: nat, whole: nat)
    requires whole > 0 && whole <= 512 * part
    ensures Share(part, whole) >= 1.0 / 512.0
  {
    var p, w := part as real, whole as real;
    Quotient(512.0 * p, w);
    assert 512.0 * p / w == 512.0 * (p / w);
  }

  function Composition(colourfulness: real, contrast: real, colours: nat, edges: real, dominant: real, clipped: real)
    : (s: real)
    ensures 0.0 <= s <= 1.0
  {
    0.25 * Score(colourfulness, 80.0) + 0.20 * Score(contrast, 64.0) + 0.20 * Score(colours as real, 96.0)
    + 0.20 * Score(edges, 0.18) + 0.10 * Score(1.0 - dominant, 0.75) + 0.05 * (1.0 - Score(clipped, 0.7))
  }

  lemma ScoreRises(value: real, more: real, maximum: real)
    requires value <= more && maximum > 0.0
    ensures Score(value, maximum) <= Score(more, maximum)
  {
    QuotientRises(value, more, maximum);
  }

  lemma QuotientRises(value: real, more: real, maximum: real)
    requires value <= more && maximum > 0.0
    ensures value / maximum <= more / maximum
  {
    var a, b := value / maximum, more / maximum;
    assert a * maximum == value && b * maximum == more;
    if a > b {
      TimesRises(b, a, maximum);
    }
  }

  lemma TimesRises(a: real, b: real, c: real)
    requires a < b && c > 0.0
    ensures a * c < b * c
  {
    assert (b - a) * c > 0.0;
  }

  /**
   * Colour, contrast, the number of colours, edges and a small dominant colour never lower the composition score, and
   * clipping never raises it.
   */
  lemma CompositionMoves(a: real, b: real, n: nat, e: real, d: real, c: real, a1: real, b1: real, n1: nat, e1: real,
                         d1: real, c1: real)
    requires a <= a1 && b <= b1 && n <= n1 && e <= e1 && d >= d1 && c >= c1
    ensures Composition(a, b, n, e, d, c) <= Composition(a1, b1, n1, e1, d1, c1)
  {
    hide Score;
    ScoreRises(a, a1, 80.0);
    ScoreRises(b, b1, 64.0);
    ScoreRises(n as real, n1 as real, 96.0);
    ScoreRises(e, e1, 0.18);
    ScoreRises(1.0 - d, 1.0 - d1, 0.75);
    ScoreRises(c1, c, 0.7);
  }

  /** The hundredths that a measure adds on its way from nothing to its full mark, all others being equal. */
  lemma CompositionWeighs(a: real, b: real, n: nat, e: real, d: real, c: real)
    ensures Composition(80.0, b, n, e, d, c) - Composition(0.0, b, n, e, d, c) == 0.25
    ensures Composition(a, 64.0, n, e, d, c) - Composition(a, 0.0, n, e, d, c) == 0.20
    ensures Composition(a, b, 96, e, d, c) - Composition(a, b, 0, e, d, c) == 0.20
    ensures Composition(a, b, n, 0.18, d, c) - Composition(a, b, n, 0.0, d, c) == 0.20
    ensures Composition(a, b, n, e, 0.25, c) - Composition(a, b, n, e, 1.0, c) == 0.10
    ensures Composition(a, b, n, e, d, 0.0) - Composition(a, b, n, e, d, 0.7) == 0.05
  {
    hide Score;
  }

  /** Full marks, and none at all. */
  lemma CompositionExtremes(a: real, b: real, n: nat, e: real, d: real, c: real)
    ensures Composition(a, b, n, e, d, c) == 1.0
            <==> a >= 80.0 && b >= 64.0 && n >= 96 && e >= 0.18 && d <= 0.25 && c <= 0.0
    ensures Composition(a, b, n, e, d, c) == 0.0
            <==> a <= 0.0 && b <= 0.0 && n == 0 && e <= 0.0 && d >= 1.0 && c >= 0.7
  {
    hide Score;
  }

  function Luminance(p: Pixel): real {
    0.2126 * p.red as real + 0.7152 * p.green as real + 0.0722 * p.blue as real
  }

  /** A grey pixel is as bright as its channels, and green counts for more than red, and red for more than blue. */
  lemma LuminanceMeans(p: Pixel, n: Byte)
    ensures Luminance(Pixel(n, n, n)) == n as real
    ensures n > 0 ==>
              Luminance(Pixel(0, n, 0)) > 3.0 * Luminance(Pixel(n, 0, 0)) && Luminance(Pixel(n, 0, 0)) > 2.0 * Luminance(Pixel(0, 0, n)) > 0.0
    ensures Luminance(p)
            == Luminance(Pixel(p.red, 0, 0)) + Luminance(Pixel(0, p.green, 0)) + Luminance(Pixel(0, 0, p.blue))
  {
  }

  method CountClipped(luminance: seq<real>) returns (clipped: nat)
    ensures clipped == |ClippedAt(luminance)| <= |luminance|
    ensures forall i :: i in ClippedAt(luminance) <==>
              0 <= i < |luminance| && !(5.0 < luminance[i] < 250.0)
  {
    clipped := 0;
    ghost var hit: set<int> := {};
    for i := 0 to |luminance|
      invariant hit == set k | 0 <= k < i && (luminance[k] <= 5.0 || luminance[k] >= 250.0)
      invariant clipped == |hit| <= i
    {
      if luminance[i] <= 5.0 || luminance[i] >= 250.0 {
        clipped := clipped + 1;
        hit := hit + {i};
      }
    }
  }

  /** The largest multiplicity in a non-empty sequence of colours. */
  ghost predicate IsLargestCount(most: nat, quantised: seq<Colour>) {
    (exists c :: c in quantised && multiset(quantised)[c] == most)
    && forall c :: c in quantised ==> multiset(quantised)[c] <= most
  }

  function Luminances(pixels: seq<Pixel>): seq<real> {
    seq(|pixels|, i requires 0 <= i < |pixels| => Luminance(pixels[i]))
  }

  function QuantisedAll(pixels: seq<Pixel>): seq<Colour> {
    seq(|pixels|, i requires 0 <= i < |pixels| => Quantised(pixels[i]))
  }

  function ClippedAt(luminance: seq<real>): set<int> {
    set i | 0 <= i < |luminance| && (luminance[i] <= 5.0 || luminance[i] >= 250.0)
  }

  /**
   * The metrics of an image of at least two by two pixels, for any values of the root-based measures: how many colours
   * it has, which share of its neighbouring pairs are edges, which share of its pixels the commonest colour covers and
   * which are clipped. The commonest colour covers at least one pixel in 512, and the score is in [0, 1].
   */
  method Measure(pixels: seq<Pixel>, width: nat, height: nat, colourfulness: real, contrast: real)
    returns (m: Metrics)
    requires width >= 2 && height >= 2 && |pixels| == width * height
    ensures width * height > 0 && |Pairs(width, height)| > 0
    ensures m.uniqueColours == |set c | c in QuantisedAll(pixels)|
    ensures m.edgeDensity
            == Share(|Edges(Luminances(pixels), width, height, Pairs(width, height))|, |Pairs(width, height)|)
    ensures exists most :: IsLargestCount(most, QuantisedAll(pixels)) && m.dominantFraction == Share(most, |pixels|)
    ensures m.clippedFraction == Share(|ClippedAt(Luminances(pixels))|, |pixels|)
    ensures 1 <= m.uniqueColours <= 512
    ensures 0.0 <= m.edgeDensity <= 1.0 && 0.0 <= m.clippedFraction <= 1.0
    ensures 1.0 / 512.0 <= m.dominantFraction <= 1.0
    ensures 0.0 <= m.composition <= 1.0
    ensures m.composition
            == Composition(colourfulness, contrast, m.uniqueColours, m.edgeDensity, m.dominantFraction, m.clippedFraction)
  {
    hide Luminance, Share, Composition, Pairs, Edges, Quantised;
    GridIsNotEmpty(width, height);
    var luminance := Luminances(pixels);
    var counts, quantised := Histogram(pixels);
    assert quantised == QuantisedAll(pixels);
    forall c | c in quantised
      ensures InCube(c)
    {
      var i :| 0 <= i < |quantised| && quantised[i] == c;
      QuantisedInCube(pixels[i]);
    }
    assert quantised[0] in counts;
    var most := Dominant(counts);
    DominantShare(quantised, counts, most);
    assert IsLargestCount(most, quantised);
    assert counts.Keys == set c | c in quantised;
    var edges, comparisons := CountEdges(luminance, width, height);
    var clipped := CountClipped(luminance);
    ShareIsFraction(most, |quantised|);
    LargeShare(most, |quantised|);
    ShareIsFraction(clipped, |luminance|);
    ShareIsFraction(edges, comparisons);
    var density, dominant, washed := Share(edges, comparisons), Share(most, |quantised|), Share(clipped, |luminance|);
    m := Metrics(|counts.Keys|, density, dominant, washed,
                 Composition(colourfulness, contrast, |counts.Keys|, density, dominant, washed));
  }

  /** A channel's step covers 32 values. */
  lemma QuantisedInCube(p: Pixel)
    ensures InCube(Quantised(p))
    ensures 32 * Quantised(p).red <= p.red < 32 * Quantised(p).red + 32
    ensures 32 * Quantised(p).green <= p.green < 32 * Quantised(p).green + 32
    ensures 32 * Quantised(p).blue <= p.blue < 32 * Quantised(p).blue + 32
  {
  }

  lemma GridIsNotEmpty(width: nat, height: nat)
    requires width >= 2 && height >= 2
    ensures width * height >= 4 && 2 * width * height - width - height >= 4
  {
    AtLeastTwice(width, height);
    AtLeastTwice(height, width - 1);
    AtLeastTwice(width, height - 1);
    assert height * (width - 1) == width * height - height;
    assert width * (height - 1) == width * height - width;
    assert 2 * width * height == width * height + width * height;
  }

  lemma AtLeastTwice(a: nat, b: nat)
    requires a >= 2
    ensures a * b >= 2 * b
  {
  }
}
