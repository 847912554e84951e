/**
 * The fretboard diagram of generate_fretboard.py: fret positions from the
 * equal-tempered spacing law, string positions from a fixed spacing, and the
 * layers of the picture (neck, inlay dots, frets, strings, one highlighted
 * position) as a structured list of shapes instead of SVG text.
 *
 * Coordinates are exact reals. The ratio between consecutive fret widths,
 * `1 / 2 ** (1/12)` in the source, is the abstract constant FretMultiplier:
 * the model uses only 0 < r < 1 (and r^12 = 1/2 where a lemma says so).
 */
module Fretboard {
  import opened Wrappers

  type Ratio = r: real | 0.0 < r < 1.0 witness 0.5

  /** Ratio between the widths of consecutive frets. */
  const FretMultiplier: Ratio

  function Pow(x: real, n: nat): (p: real)
    ensures 0.0 < x ==> 0.0 < p
    ensures 0.0 < x <= 1.0 ==> p <= 1.0
  {
    if n == 0 then 1.0
    else
      var q := Pow(x, n - 1);
      assert 0.0 < x ==> 0.0 < x * q;
      assert 0.0 < x <= 1.0 ==> x * q <= q;
      x * q
  }

  /** Python's `x ** n` for an integer exponent: a negative exponent gives the reciprocal. */
  function IntPow(x: real, n: int): (p: real)
    requires 0.0 < x
    ensures 0.0 < p
  {
    if n >= 0 then Pow(x, n) else 1.0 / Pow(x, -n)
  }

  /** Raising the exponent by one multiplies by the base, for negative exponents too. */
  lemma IntPowStep(x: real, n: int)
    requires 0.0 < x
    ensures IntPow(x, n + 1) == x * IntPow(x, n)
  {
    if n < 0 {
      var q := Pow(x, -n - 1);
      assert Pow(x, -n) == x * q;
      calc {
        x * IntPow(x, n);
        x * (1.0 / (x * q));
        1.0 / q;
        IntPow(x, n + 1);
      }
    }
  }

  // ---------------------------------------------------------------------------
  // HorizontalPositionCalculator
  // ---------------------------------------------------------------------------

  datatype HorizontalPositionCalculator = HorizontalPositionCalculator(firstFretWidth: real)
  {
    /** The x-position of fret boundary `fretNumber`: the closed form of the geometric series of fret widths. */
    function Fret(fretNumber: int): real {
      firstFretWidth * ((1.0 - IntPow(FretMultiplier, fretNumber)) / (1.0 - FretMultiplier))
    }

    /** The x-position of the marker of fret `fretNumber`: midway between the previous fret and this one. */
    function Marker(fretNumber: int): real {
      (Fret(fretNumber - 1) + Fret(fretNumber)) / 2.0
    }
  }

  /** The nut is at 0 and the first fret one first-fret width further. */
  lemma FretAtNut(h: HorizontalPositionCalculator)
    ensures h.Fret(0) == 0.0
    ensures h.Fret(1) == h.firstFretWidth
  {
    var r := FretMultiplier;
    var d := 1.0 - r;
    assert IntPow(r, 0) == 1.0;
    assert h.Fret(0) == h.firstFretWidth * ((1.0 - 1.0) / d);
    ZeroOver(d);
    assert IntPow(r, 1) == r by { assert Pow(r, 1) == r * Pow(r, 0); }
    assert h.Fret(1) == h.firstFretWidth * (d / d);
    OverSelf(d);
  }

  lemma ZeroOver(d: real)
    requires d != 0.0
    ensures (1.0 - 1.0) / d == 0.0
  {
  }

  lemma OverSelf(d: real)
    requires d != 0.0
    ensures d / d == 1.0
  {
  }

  /** The width of fret n + 1 is w * r^n (for n below 0 too): each fret is r times as wide as the one before. */
  lemma FretGap(h: HorizontalPositionCalculator, n: int)
    ensures h.Fret(n + 1) - h.Fret(n) == h.firstFretWidth * IntPow(FretMultiplier, n)
  {
    var r := FretMultiplier;
    IntPowStep(r, n);
    GapAlgebra(h.firstFretWidth, IntPow(r, n), IntPow(r, n + 1), r);
  }

  lemma GapAlgebra(w: real, p: real, q: real, r: real)
    requires 0.0 < r < 1.0
    requires q == r * p
    ensures w * ((1.0 - q) / (1.0 - r)) - w * ((1.0 - p) / (1.0 - r)) == w * p
  {
    var d := 1.0 - r;
    var a := (1.0 - q) / d;
    var b := (1.0 - p) / d;
    assert a * d == 1.0 - r * p;
    assert b * d == 1.0 - p;
    assert (a - b) * d == p * d;
    CancelFactor(a - b, p, d);
    assert w * a - w * b == w * (a - b);
  }

  lemma CancelFactor(x: real, y: real, d: real)
    requires d != 0.0 && x * d == y * d
    ensures x == y
  {
    assert (x - y) * d == 0.0;
  }

  lemma ProductPositive(a: real, b: real)
    requires 0.0 < a && 0.0 < b
    ensures 0.0 < a * b
  {
  }

  lemma ScaleLess(w: real, a: real, b: real)
    requires 0.0 < w && a < b
    ensures w * a < w * b
  {
    assert w * b - w * a == w * (b - a);
    ProductPositive(w, b - a);
  }

  /** Consecutive fret widths shrink by the ratio r. */
  lemma FretGapRatio(h: HorizontalPositionCalculator, n: int)
    ensures h.Fret(n + 2) - h.Fret(n + 1) == FretMultiplier * (h.Fret(n + 1) - h.Fret(n))
  {
    FretGap(h, n);
    FretGap(h, n + 1);
    IntPowStep(FretMultiplier, n);
  }

  /** With a positive first-fret width, fret positions strictly increase, over all integer fret numbers. */
  lemma {:induction false} FretIncreasing(h: HorizontalPositionCalculator, m: int, n: int)
    requires 0.0 < h.firstFretWidth
    requires m < n
    ensures h.Fret(m) < h.Fret(n)
    decreases n - m
  {
    FretGap(h, m);
    ProductPositive(h.firstFretWidth, IntPow(FretMultiplier, m));
    if m + 1 < n {
      FretIncreasing(h, m + 1, n);
    }
  }

  /** From the nut on, every fret lies before w / (1 - r), the limit of the geometric series. */
  lemma FretBounded(h: HorizontalPositionCalculator, n: int)
    requires 0.0 < h.firstFretWidth
    requires 0 <= n
    ensures 0.0 <= h.Fret(n) < h.firstFretWidth / (1.0 - FretMultiplier)
  {
    BoundedAlgebra(h.firstFretWidth, Pow(FretMultiplier, n), 1.0 - FretMultiplier);
  }

  lemma BoundedAlgebra(w: real, p: real, d: real)
    requires 0.0 < w && 0.0 < p <= 1.0 && 0.0 < d
    ensures 0.0 <= w * ((1.0 - p) / d) < w / d
  {
    var a := (1.0 - p) / d;
    var b := 1.0 / d;
    assert a * d == 1.0 - p;
    assert b * d == 1.0;
    assert 0.0 <= a by {
      if a < 0.0 {
        ScaleLess(d, a, 0.0);
      }
    }
    assert a < b by {
      if b <= a {
        if b < a {
          ScaleLess(d, b, a);
        }
      }
    }
    ScaleLess(w, a, b);
    assert w * b == w / d;
    if 0.0 < a {
      ProductPositive(w, a);
    }
  }

  /** Each fret is r^12 times as wide as the fret an octave lower. */
  lemma FretOctave(h: HorizontalPositionCalculator, n: nat)
    ensures h.Fret(n + 13) - h.Fret(n + 12) == Pow(FretMultiplier, 12) * (h.Fret(n + 1) - h.Fret(n))
  {
    var p := Pow(FretMultiplier, n);
    var q := Pow(FretMultiplier, 12);
    FretGap(h, n);
    FretGap(h, n + 12);
    assert IntPow(FretMultiplier, n + 12) == p * q by {
      PowAdd(FretMultiplier, n, 12);
    }
    Regroup(h.firstFretWidth, p, q);
  }

  /** With r^12 = 1/2 (r = 2^(-1/12)) the twelfth fret halves the scale limit. */
  lemma FretOctaveHalf(h: HorizontalPositionCalculator)
    ensures Pow(FretMultiplier, 12) == 0.5 ==>
              h.Fret(12) == (h.firstFretWidth / (1.0 - FretMultiplier)) / 2.0
  {
    if Pow(FretMultiplier, 12) == 0.5 {
      HalfScale(h.firstFretWidth, 1.0 - FretMultiplier);
    }
  }

  lemma Regroup(w: real, p: real, q: real)
    ensures w * (p * q) == q * (w * p)
  {
  }

  lemma HalfScale(w: real, d: real)
    requires d != 0.0
    ensures w * ((1.0 - 0.5) / d) == (w / d) / 2.0
  {
  }

  lemma {:induction false} PowAdd(x: real, m: nat, n: nat)
    ensures Pow(x, m + n) == Pow(x, m) * Pow(x, n)
  {
    if n > 0 {
      PowAdd(x, m, n - 1);
      assert Pow(x, m + n) == x * Pow(x, m + n - 1);
    }
  }

  /** For every fret number, the marker lies strictly between the previous fret and this one, at their midpoint. */
  lemma MarkerBetween(h: HorizontalPositionCalculator, n: int)
    requires 0.0 < h.firstFretWidth
    ensures h.Fret(n - 1) < h.Marker(n) < h.Fret(n)
    ensures h.Marker(n) - h.Fret(n - 1) == h.Fret(n) - h.Marker(n)
  {
    FretIncreasing(h, n - 1, n);
  }

  /**
   * Fret 0 is not special-cased: its marker averages fret(-1) = -w / r and the nut,
   * so it lies left of the nut, outside the picture.
   */
  lemma MarkerAtNut(h: HorizontalPositionCalculator)
    ensures h.Fret(-1) == -h.firstFretWidth / FretMultiplier
    ensures h.Marker(0) == -h.firstFretWidth / (2.0 * FretMultiplier)
    ensures 0.0 < h.firstFretWidth ==> h.Marker(0) < 0.0
  {
    var r := FretMultiplier;
    var w := h.firstFretWidth;
    FretAtNut(h);
    assert IntPow(r, -1) == 1.0 / r by { assert Pow(r, 1) == r * Pow(r, 0); }
    assert h.Fret(-1) == w * ((1.0 - 1.0 / r) / (1.0 - r));
    BeforeNutAlgebra(w, r);
    if 0.0 < w {
      ProductPositive(w, 1.0 / (2.0 * r));
    }
  }

  lemma BeforeNutAlgebra(w: real, r: real)
    requires 0.0 < r < 1.0
    ensures w * ((1.0 - 1.0 / r) / (1.0 - r)) == -w / r
    ensures (-w / r + 0.0) / 2.0 == -w / (2.0 * r)
    ensures -w / (2.0 * r) == -(w * (1.0 / (2.0 * r)))
  {
    var d := 1.0 - r;
    assert 1.0 - 1.0 / r == -d / r;
    assert (-d / r) / d == -1.0 / r;
  }

  // ---------------------------------------------------------------------------
  // VerticalPositionCalculator
  // ---------------------------------------------------------------------------

  datatype VerticalPositionCalculator = VerticalPositionCalculator(stringHeight: real, stringCount: int)
  {
    /** The y-position of string `stringNumber`: string 0 is the topmost line. */
    function String(stringNumber: int): real {
      stringNumber as real * stringHeight + stringHeight / 2.0
    }

    function NeckHeight(): real {
      stringHeight * stringCount as real
    }
  }

  /** Strings are evenly spaced, one string height apart, downwards in string order. */
  lemma StringSpacing(v: VerticalPositionCalculator, i: int, j: int)
    requires 0.0 < v.stringHeight
    requires i < j
    ensures v.String(j) - v.String(i) == (j - i) as real * v.stringHeight
    ensures v.String(i) < v.String(j)
  {
    assert j as real * v.stringHeight - i as real * v.stringHeight == (j - i) as real * v.stringHeight;
    ProductPositive((j - i) as real, v.stringHeight);
  }

  lemma ScaleAtMost(w: real, a: real, b: real)
    requires 0.0 < w && a <= b
    ensures a * w <= b * w
  {
    if a < b {
      ScaleLess(w, a, b);
    }
  }

  /**
   * A string's centre line is inside the neck exactly when its number is in range;
   * in range it keeps half a string height from either edge.
   */
  lemma StringWithinNeck(v: VerticalPositionCalculator, i: int)
    requires 0.0 < v.stringHeight
    ensures 0.0 < v.String(i) < v.NeckHeight() <==> 0 <= i < v.stringCount
    ensures 0 <= i < v.stringCount ==>
              v.stringHeight / 2.0 <= v.String(i) <= v.NeckHeight() - v.stringHeight / 2.0
  {
    var h := v.stringHeight;
    var a := i as real;
    var c := v.stringCount as real;
    assert v.String(i) == a * h + h / 2.0;
    assert v.NeckHeight() == c * h;
    if i < 0 {
      ScaleAtMost(h, a, -1.0);
    } else if i < v.stringCount {
      ScaleAtMost(h, 0.0, a);
      ScaleAtMost(h, a, c - 1.0);
      assert (c - 1.0) * h == c * h - h;
    } else {
      ScaleAtMost(h, c, a);
    }
  }

  // ---------------------------------------------------------------------------
  // The picture
  // ---------------------------------------------------------------------------

  datatype Stroke = Stroke(color: string, width: real)

  datatype Element =
    | Rect(id: string, width: real, height: real, fill: string)
    | Line(x1: real, y1: real, x2: real, y2: real, stroke: Stroke)
    | Circle(cx: real, cy: real, radius: real, outline: Option<Stroke>, fill: string)

  /** A `<g id=...>` layer of the picture. */
  datatype Group = Group(id: string, elements: seq<Element>)

  /** The whole picture: its size, the neck rectangle, then the layers from back to front. */
  datatype Svg = Svg(width: real, height: real, neck: Element, groups: seq<Group>)

  /** A fretboard cell: a fret number (0 is the open string) and a string number. */
  datatype Position = Position(fret: int, stringNumber: int)

  /** Spacing between string centre lines, fixed by the renderer. */
  const StringHeight: real := 20.0

  function StringLine(v: VerticalPositionCalculator, totalWidth: real, i: int, strokeWidth: real): Element {
    Line(0.0, v.String(i), totalWidth, v.String(i), Stroke("#888", strokeWidth))
  }

  function FretLine(x: real, neckHeight: real): Element {
    Line(x, 0.0, x, neckHeight, Stroke("black", 1.0))
  }

  function InlayDot(x: real, y: real): Element {
    Circle(x, y, 5.0, Some(Stroke("black", 1.0)), "white")
  }

  function HighlightCircle(x: real, y: real): Element {
    Circle(x, y, 7.5, None, "red")
  }

  /** The string lines for the first |stringWidths| strings, in order. */
  function StringLines(v: VerticalPositionCalculator, totalWidth: real, stringWidths: seq<real>): (lines: seq<Element>)
    ensures |lines| == |stringWidths|
  {
    if |stringWidths| == 0 then []
    else
      var i := |stringWidths| - 1;
      StringLines(v, totalWidth, stringWidths[..i]) + [StringLine(v, totalWidth, i, stringWidths[i])]
  }

  /** Fret lines for the inner boundaries 1 .. n - 1. */
  function FretLines(h: HorizontalPositionCalculator, n: int, neckHeight: real): (lines: seq<Element>)
    ensures |lines| == if n <= 1 then 0 else n - 1
    decreases n
  {
    if n <= 1 then []
    else FretLines(h, n - 1, neckHeight) + [FretLine(h.Fret(n - 1), neckHeight)]
  }

  datatype Inlay = NoDot | SingleDot | DoubleDot

  /** The inlay convention, keyed on the fret number modulo 12. */
  function InlayOf(i: int): Inlay {
    if i % 12 in [3, 5, 7, 9] then SingleDot
    else if i % 12 == 0 then DoubleDot
    else NoDot
  }

  /** The inlay dots of fret i. */
  function DotsAt(h: HorizontalPositionCalculator, i: int, neckHeight: real): seq<Element> {
    var x := h.Marker(i);
    match InlayOf(i)
    case SingleDot => [InlayDot(x, neckHeight / 2.0)]
    case DoubleDot => [InlayDot(x, neckHeight * 0.25), InlayDot(x, neckHeight * 0.75)]
    case NoDot => []
  }

  /** Inlay dots for frets 1 .. n - 1, in fret order. */
  function InlayDots(h: HorizontalPositionCalculator, n: int, neckHeight: real): (dots: seq<Element>)
    ensures |dots| == InlayCount(n)
    decreases n
  {
    if n <= 1 then []
    else InlayDots(h, n - 1, neckHeight) + DotsAt(h, n - 1, neckHeight)
  }

  function HighlightLayer(h: HorizontalPositionCalculator, v: VerticalPositionCalculator, p: Option<Position>): (circles: seq<Element>)
    ensures |circles| == if p.Some? then 1 else 0
    ensures forall e :: e in circles ==> e.Circle? && e.fill == "red" && e.radius == 7.5
  {
    match p
    case None => []
    case Some(pos) => [HighlightCircle(h.Marker(pos.fret), v.String(pos.stringNumber))]
  }

  /** The picture generate_fretboard_svg describes. */
  function Diagram(fretCount: int, firstFretWidth: real, background: string,
                   stringWidths: seq<real>, highlightPosition: Option<Position>): Svg
  {
    var h := HorizontalPositionCalculator(firstFretWidth);
    var v := VerticalPositionCalculator(StringHeight, |stringWidths|);
    var width := h.Fret(fretCount);
    var height := v.NeckHeight();
    Svg(width, height, Rect("neck", width, height, background),
        [ Group("markers", InlayDots(h, fretCount, height)),
          Group("frets", FretLines(h, fretCount, height)),
          Group("strings", StringLines(v, width, stringWidths)),
          Group("highlight", HighlightLayer(h, v, highlightPosition)) ])
  }

  // ---------------------------------------------------------------------------
  // What the layers contain
  // ---------------------------------------------------------------------------

  /** String k's line crosses the whole picture at string k's height, drawn with the k-th stroke width. */
  lemma {:induction false} StringLinesAt(v: VerticalPositionCalculator, totalWidth: real, stringWidths: seq<real>)
    ensures |StringLines(v, totalWidth, stringWidths)| == |stringWidths|
    ensures forall k :: 0 <= k < |stringWidths| ==>
              StringLines(v, totalWidth, stringWidths)[k] == StringLine(v, totalWidth, k, stringWidths[k])
  {
    if |stringWidths| > 0 {
      var i := |stringWidths| - 1;
      StringLinesAt(v, totalWidth, stringWidths[..i]);
      assert forall k :: 0 <= k < i ==> stringWidths[..i][k] == stringWidths[k];
    }
  }

  /** The fret layer holds exactly the boundaries 1 .. n - 1, in order, each from the top edge to the bottom edge. */
  lemma {:induction false} FretLinesAt(h: HorizontalPositionCalculator, n: int, neckHeight: real)
    ensures |FretLines(h, n, neckHeight)| == if n <= 1 then 0 else n - 1
    ensures forall k :: 0 <= k < |FretLines(h, n, neckHeight)| ==>
              FretLines(h, n, neckHeight)[k] == FretLine(h.Fret(k + 1), neckHeight)
    decreases n
  {
    if n > 1 {
      FretLinesAt(h, n - 1, neckHeight);
    }
  }

  /** Fret lines go strictly left to right and all lie strictly inside the picture, between the nut and fret n. */
  lemma FretLinesOrdered(h: HorizontalPositionCalculator, n: int, neckHeight: real)
    requires 0.0 < h.firstFretWidth
    ensures forall k :: 0 <= k < |FretLines(h, n, neckHeight)| ==> FretLines(h, n, neckHeight)[k].Line?
    ensures forall j, k :: 0 <= j < k < |FretLines(h, n, neckHeight)| ==>
              FretLines(h, n, neckHeight)[j].x1 < FretLines(h, n, neckHeight)[k].x1
    ensures forall k :: 0 <= k < |FretLines(h, n, neckHeight)| ==>
              0.0 < FretLines(h, n, neckHeight)[k].x1 < h.Fret(n)
  {
    var lines := FretLines(h, n, neckHeight);
    FretLinesAt(h, n, neckHeight);
    FretAtNut(h);
    forall j, k | 0 <= j < k < |lines|
      ensures lines[j].x1 < lines[k].x1
    {
      assert lines[j].x1 == h.Fret(j + 1) && lines[k].x1 == h.Fret(k + 1);
      FretIncreasing(h, j + 1, k + 1);
    }
    forall k | 0 <= k < |lines|
      ensures 0.0 < lines[k].x1 < h.Fret(n)
    {
      assert lines[k].x1 == h.Fret(k + 1);
      FretIncreasing(h, 0, k + 1);
      FretIncreasing(h, k + 1, n);
    }
  }

  /** The inlay rule repeats every octave, so it keeps going past fret 24. */
  lemma InlayPeriodic(i: int)
    ensures InlayOf(i + 12) == InlayOf(i)
  {
    assert (i + 12) % 12 == i % 12;
  }

  /** On the first two octaves: single dots at 3, 5, 7, 9, 15, 17, 19, 21 and double dots at 12 and 24. */
  lemma InlayFirstTwoOctaves(i: int)
    requires 1 <= i <= 24
    ensures InlayOf(i) == SingleDot <==> i in {3, 5, 7, 9, 15, 17, 19, 21}
    ensures InlayOf(i) == DoubleDot <==> i == 12 || i == 24
  {
    if 12 <= i < 24 {
      assert i % 12 == i - 12;
    }
  }

  /** How many circles the inlay rule draws at fret i. */
  function DotCount(i: int): nat {
    match InlayOf(i)
    case NoDot => 0
    case SingleDot => 1
    case DoubleDot => 2
  }

  /** How many circles the inlay rule draws on frets 1 .. n - 1. */
  function InlayCount(n: int): nat
    decreases n
  {
    if n <= 1 then 0 else InlayCount(n - 1) + DotCount(n - 1)
  }

  /** The marker layer holds exactly as many circles as the inlay rule asks for. */
  lemma {:induction false} InlayDotsCount(h: HorizontalPositionCalculator, n: int, neckHeight: real)
    ensures |InlayDots(h, n, neckHeight)| == InlayCount(n)
    decreases n
  {
    if n > 1 {
      InlayDotsCount(h, n - 1, neckHeight);
      assert |DotsAt(h, n - 1, neckHeight)| == DotCount(n - 1);
    }
  }

  /** Every octave of frets adds four single dots and one double dot: six circles. */
  lemma {:induction false} InlayCountOctave(n: int)
    requires 1 <= n
    ensures InlayCount(n + 12) == InlayCount(n) + 6
    decreases n
  {
    if n == 1 {
      assert InlayCount(13) == 6;
    } else {
      InlayCountOctave(n - 1);
      InlayPeriodic(n - 1);
    }
  }

  /** The default 21-fret neck has dots on 3, 5, 7, 9, 12 (two), 15, 17 and 19: nine circles. */
  lemma InlayCountDefault()
    ensures InlayCount(21) == 9
  {
    InlayCountOctave(1);
    assert InlayCount(16) == 7;
  }

  /** A neck of 12m + 1 frets, i.e. m full octaves of inner frets, carries 6m inlay circles (6 for 13 frets). */
  lemma {:induction false} InlayDotsOctaves(h: HorizontalPositionCalculator, m: nat, neckHeight: real)
    ensures |InlayDots(h, 12 * m + 1, neckHeight)| == 6 * m
  {
    InlayDotsCount(h, 12 * m + 1, neckHeight);
    InlayCountOctaves(m);
  }

  lemma {:induction false} InlayCountOctaves(m: nat)
    ensures InlayCount(12 * m + 1) == 6 * m
  {
    if m > 0 {
      InlayCountOctaves(m - 1);
      InlayCountOctave(12 * (m - 1) + 1);
    }
  }

  /** The marker layer is exactly the dots of frets 1 .. n - 1: nothing from other frets, nothing left out. */
  lemma {:induction false} InlayDotsFrets(h: HorizontalPositionCalculator, n: int, neckHeight: real)
    ensures forall e :: e in InlayDots(h, n, neckHeight) <==>
              exists i :: 1 <= i < n && e in DotsAt(h, i, neckHeight)
    decreases n
  {
    if n > 1 {
      InlayDotsFrets(h, n - 1, neckHeight);
      assert InlayDots(h, n, neckHeight) == InlayDots(h, n - 1, neckHeight) + DotsAt(h, n - 1, neckHeight);
    }
  }

  /**
   * Every inlay dot is a white circle of radius 5 strictly inside the neck, left of fret n - 1,
   * and the dots come in fret order from left to right.
   */
  lemma {:induction false} InlayDotsInside(h: HorizontalPositionCalculator, n: int, neckHeight: real)
    requires 0.0 < h.firstFretWidth && 0.0 < neckHeight
    ensures forall e :: e in InlayDots(h, n, neckHeight) ==>
              e.Circle? && e.radius == 5.0 && e.fill == "white" &&
              0.0 < e.cx < h.Fret(n - 1) && 0.0 < e.cy < neckHeight
    ensures forall j, k :: 0 <= j < k < |InlayDots(h, n, neckHeight)| ==>
              InlayDots(h, n, neckHeight)[j].cx <= InlayDots(h, n, neckHeight)[k].cx
    decreases n
  {
    if n > 1 {
      var before := InlayDots(h, n - 1, neckHeight);
      var here := DotsAt(h, n - 1, neckHeight);
      var x := h.Marker(n - 1);
      InlayDotsInside(h, n - 1, neckHeight);
      MarkerBetween(h, n - 1);
      FretAtNut(h);
      if n - 2 > 0 {
        FretIncreasing(h, 0, n - 2);
      }
      assert forall e :: e in here ==> e.Circle? && e.cx == x && 0.0 < e.cy < neckHeight;
      assert forall e :: e in before ==> e.cx < x;
      var dots := before + here;
      assert dots == InlayDots(h, n, neckHeight);
      forall j, k | 0 <= j < k < |dots|
        ensures dots[j].cx <= dots[k].cx
      {
        if k >= |before| {
          assert dots[k] in here;
          if j < |before| {
            assert dots[j] in before;
          } else {
            assert dots[j] in here;
          }
        }
      }
    }
  }

  /** The marker of fret f lies strictly inside a picture of fretCount frets exactly when 1 <= f <= fretCount. */
  lemma MarkerWithinNeck(h: HorizontalPositionCalculator, fretCount: int, f: int)
    requires 0.0 < h.firstFretWidth
    ensures 0.0 < h.Marker(f) < h.Fret(fretCount) <==> 1 <= f <= fretCount
  {
    MarkerBetween(h, f);
    FretAtNut(h);
    if f >= 1 {
      if f - 1 > 0 {
        FretIncreasing(h, 0, f - 1);
      }
      if f < fretCount {
        FretIncreasing(h, f, fretCount);
      } else if f - 1 > fretCount {
        FretIncreasing(h, fretCount, f - 1);
      }
    } else if f < 0 {
      FretIncreasing(h, f, 0);
    }
  }

  /**
   * The open-string marker is centred left of the nut by more than half the first fret, so with
   * a first fret of at least 15 the whole highlight circle (radius 7.5) is outside the picture.
   */
  lemma OpenStringHighlightHidden(h: HorizontalPositionCalculator)
    requires 15.0 <= h.firstFretWidth
    ensures h.Marker(0) + 7.5 < 0.0
  {
    MarkerAtNut(h);
    HalfLessThanScaled(h.firstFretWidth, FretMultiplier);
  }

  lemma HalfLessThanScaled(w: real, r: real)
    requires 0.0 < w && 0.0 < r < 1.0
    ensures w / 2.0 < w / (2.0 * r)
  {
    var q := w / (2.0 * r);
    assert q * (2.0 * r) == w;
  }

  /**
   * The picture's size is the last fret by the neck height; the neck rectangle fills it; the layers
   * are markers, frets, strings, highlight, back to front; there are fretCount - 1 fret lines, one line
   * per string width and one highlight circle exactly when a position is given.
   */
  lemma DiagramLayout(fretCount: int, firstFretWidth: real, background: string,
                      stringWidths: seq<real>, highlightPosition: Option<Position>)
    ensures var d := Diagram(fretCount, firstFretWidth, background, stringWidths, highlightPosition);
            d.width == HorizontalPositionCalculator(firstFretWidth).Fret(fretCount) &&
            d.height == StringHeight * |stringWidths| as real &&
            d.neck == Rect("neck", d.width, d.height, background) &&
            |d.groups| == 4 &&
            d.groups[0].id == "markers" && d.groups[1].id == "frets" &&
            d.groups[2].id == "strings" && d.groups[3].id == "highlight" &&
            |d.groups[1].elements| == (if fretCount <= 1 then 0 else fretCount - 1) &&
            |d.groups[2].elements| == |stringWidths| &&
            |d.groups[3].elements| == (if highlightPosition.Some? then 1 else 0)
  {
    var h := HorizontalPositionCalculator(firstFretWidth);
    var v := VerticalPositionCalculator(StringHeight, |stringWidths|);
    FretLinesAt(h, fretCount, v.NeckHeight());
    StringLinesAt(v, h.Fret(fretCount), stringWidths);
  }

  /**
   * The highlight is a red circle at (marker(fret), string(string number)); its centre is inside the
   * picture exactly when the fret is 1 .. fretCount and the string exists.
   */
  lemma HighlightPlacement(fretCount: int, firstFretWidth: real, background: string,
                           stringWidths: seq<real>, position: Position)
    requires 0.0 < firstFretWidth
    ensures var d := Diagram(fretCount, firstFretWidth, background, stringWidths, Some(position));
            var c := d.groups[3].elements[0];
            c.Circle? && c.fill == "red" && c.radius == 7.5 &&
            (0.0 < c.cx < d.width && 0.0 < c.cy < d.height <==>
               1 <= position.fret <= fretCount && 0 <= position.stringNumber < |stringWidths|)
  {
    var h := HorizontalPositionCalculator(firstFretWidth);
    var v := VerticalPositionCalculator(StringHeight, |stringWidths|);
    MarkerWithinNeck(h, fretCount, position.fret);
    StringWithinNeck(v, position.stringNumber);
  }

  /** The default picture: 80 high, 20 fret lines, 9 inlay circles, 4 strings, the highlight on string 2 at y = 50. */
  lemma DefaultDiagram()
    ensures var d := Diagram(21, 50.0, "#F0D9B5", [4.0, 3.0, 2.5, 2.0], Some(Position(1, 2)));
            d.height == 80.0 &&
            |d.groups[0].elements| == 9 && |d.groups[1].elements| == 20 && |d.groups[2].elements| == 4 &&
            d.groups[3].elements[0].cy == 50.0 &&
            0.0 < d.groups[3].elements[0].cx < d.width
  {
    var h := HorizontalPositionCalculator(50.0);
    DiagramLayout(21, 50.0, "#F0D9B5", [4.0, 3.0, 2.5, 2.0], Some(Position(1, 2)));
    HighlightPlacement(21, 50.0, "#F0D9B5", [4.0, 3.0, 2.5, 2.0], Position(1, 2));
    InlayDotsCount(h, 21, 80.0);
    InlayCountDefault();
  }

  // ---------------------------------------------------------------------------
  // The loops of generate_fretboard_svg
  // ---------------------------------------------------------------------------

  /** One line per string width, each across the whole neck at its string's height. */
  method DrawStrings(v: VerticalPositionCalculator, totalWidth: real, stringWidths: seq<real>)
    returns (strings: seq<Element>)
    ensures strings == StringLines(v, totalWidth, stringWidths)
  {
    strings := [];
    for i := 0 to |stringWidths|
      invariant strings == StringLines(v, totalWidth, stringWidths[..i])
    {
      assert stringWidths[..i + 1][..i] == stringWidths[..i];
      strings := strings + [StringLine(v, totalWidth, i, stringWidths[i])];
    }
    assert stringWidths[..|stringWidths|] == stringWidths;
  }

  /** A vertical line at each inner fret boundary 1 .. fretCount - 1. */
  method DrawFrets(h: HorizontalPositionCalculator, fretCount: int, neckHeight: real)
    returns (frets: seq<Element>)
    ensures frets == FretLines(h, fretCount, neckHeight)
  {
    frets := [];
    var i := 1;
    while i < fretCount
      invariant 1 <= i && (i == 1 || i <= fretCount)
      invariant frets == FretLines(h, i, neckHeight)
    {
      frets := frets + [FretLine(h.Fret(i), neckHeight)];
      i := i + 1;
    }
  }

  /** The inlay dots of frets 1 .. fretCount - 1. */
  method DrawMarkers(h: HorizontalPositionCalculator, fretCount: int, neckHeight: real)
    returns (markers: seq<Element>)
    ensures markers == InlayDots(h, fretCount, neckHeight)
  {
    markers := [];
    var i := 1;
    while i < fretCount
      invariant 1 <= i && (i == 1 || i <= fretCount)
      invariant markers == InlayDots(h, i, neckHeight)
    {
      var x := h.Marker(i);
      var hasSingleMarker := i % 12 in [3, 5, 7, 9];
      var hasDoubleMarker := i % 12 == 0;
      ghost var before := markers;
      if hasSingleMarker {
        markers := markers + [InlayDot(x, neckHeight / 2.0)];
        assert DotsAt(h, i, neckHeight) == [InlayDot(x, neckHeight / 2.0)];
      } else if hasDoubleMarker {
        markers := markers + [InlayDot(x, neckHeight * 0.25)];
        markers := markers + [InlayDot(x, neckHeight * 0.75)];
        assert DotsAt(h, i, neckHeight) == [InlayDot(x, neckHeight * 0.25), InlayDot(x, neckHeight * 0.75)];
      } else {
        assert DotsAt(h, i, neckHeight) == [];
      }
      assert markers == before + DotsAt(h, i, neckHeight);
      assert InlayDots(h, i + 1, neckHeight) == InlayDots(h, i, neckHeight) + DotsAt(h, i, neckHeight);
      i := i + 1;
    }
  }

  /** generate_fretboard_svg, with the source's default arguments. */
  method GenerateFretboardSvg(fretCount: int := 21, firstFretWidth: real := 50.0, background: string := "#F0D9B5",
                              stringWidths: seq<real> := [4.0, 3.0, 2.5, 2.0],
                              highlightPosition: Option<Position> := Some(Position(1, 2)))
    returns (svg: Svg)
    ensures svg == Diagram(fretCount, firstFretWidth, background, stringWidths, highlightPosition)
  {
    var horizontal := HorizontalPositionCalculator(firstFretWidth);
    var vertical := VerticalPositionCalculator(StringHeight, |stringWidths|);
    var neckHeight := vertical.NeckHeight();
    var totalWidth := horizontal.Fret(fretCount);

    var strings := DrawStrings(vertical, totalWidth, stringWidths);
    var frets := DrawFrets(horizontal, fretCount, neckHeight);
    var markers := DrawMarkers(horizontal, fretCount, neckHeight);

    var highlight := [];
    if highlightPosition.Some? {
      var x := horizontal.Marker(highlightPosition.value.fret);
      var y := vertical.String(highlightPosition.value.stringNumber);
      highlight := [HighlightCircle(x, y)];
    }

    svg := Svg(totalWidth, neckHeight, Rect("neck", totalWidth, neckHeight, background),
               [ Group("markers", markers), Group("frets", frets),
                 Group("strings", strings), Group("highlight", highlight) ]);
  }
}
