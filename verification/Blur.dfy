/**
 The comment shadow: two rounds of a separable box filter over a flat w*h byte image.

 The filter is defined on an image given as rows of pixels, by summing every window
 afresh. The methods at the end are the running-sum form over the flat buffers and are
 proved to compute exactly that definition.
 */
module Blur {
  type Byte = n: int | 0 <= n < 256

  type Line = seq<int>

  type Image = seq<seq<int>>

  predicate IsByte(n: int) {
    0 <= n < 256
  }

  ghost predicate ByteLine(s: Line) {
    forall i :: 0 <= i < |s| ==> IsByte(s[i])
  }

  ghost predicate Rect(img: Image, w: nat, h: nat) {
    |img| == h && forall y :: 0 <= y < h ==> |img[y]| == w
  }

  ghost predicate ByteImage(img: Image, w: nat, h: nat) {
    Rect(img, w, h) && forall y :: 0 <= y < h ==> ByteLine(img[y])
  }

  // ---------- one line ----------

  /** The pixel at i, and nothing beyond the ends of the line. */
  function Padded(s: Line, i: int): int {
    if 0 <= i < |s| then s[i] else 0
  }

  /** The sum of the padded line over lo <= i < hi. */
  function Window(s: Line, lo: int, hi: int): int
    decreases hi - lo
  {
    if hi <= lo then 0 else Window(s, lo, hi - 1) + Padded(s, hi - 1)
  }

  function Sum(s: Line): int {
    Window(s, 0, |s|)
  }

  /** The naive filter: average the window reaching k pixels to either side. */
  function Box(s: Line, k: nat, x: int): int {
    Window(s, x - k, x + k + 1) / (2 * k + 1)
  }

  function BoxLine(s: Line, k: nat): (r: Line)
    ensures |r| == |s|
  {
    seq(|s|, x requires 0 <= x => Box(s, k, x))
  }

  lemma {:induction false} WindowDropFirst(s: Line, lo: int, hi: int)
    requires lo < hi
    ensures Window(s, lo, hi) == Padded(s, lo) + Window(s, lo + 1, hi)
    decreases hi - lo
  {
    if lo + 1 < hi {
      WindowDropFirst(s, lo, hi - 1);
    }
  }

  /** A window over bytes is non-negative and at most 255 for every pixel in it. */
  lemma {:induction false} WindowBound(s: Line, lo: int, hi: int, peak: int)
    requires forall i :: 0 <= i < |s| ==> 0 <= s[i] <= peak
    requires lo <= hi && 0 <= peak
    ensures 0 <= Window(s, lo, hi) <= (hi - lo) * peak
    decreases hi - lo
  {
    if lo < hi {
      WindowBound(s, lo, hi - 1, peak);
      assert (hi - lo) * peak == (hi - 1 - lo) * peak + peak;
    }
  }

  lemma MulNonNegative(a: nat, b: nat)
    ensures 0 <= a * b
  {
  }

  lemma MulStep(d: nat, a: int, b: int)
    ensures a < b ==> d * a + d <= d * b
  {
    if a < b {
      var e := b - a - 1;
      assert d * b == d * (a + 1 + e) == d * a + d + d * e;
      MulNonNegative(d, e);
    }
  }

  lemma DivBound(n: int, d: int, q: int)
    requires 0 < d && 0 <= n <= d * q
    ensures 0 <= n / d <= q
  {
    MulStep(d, q, n / d);
  }

  /** The running sum fits: it is at most 255 for each pixel of the line, so no line
      shorter than 8421504 pixels overflows a 32-bit int. */
  lemma {:induction false} WindowFitsLine(s: Line, lo: int, hi: int)
    requires ByteLine(s) && lo <= hi
    ensures 0 <= Window(s, lo, hi) <= Sum(s) <= 255 * |s|
    decreases hi - lo
  {
    WindowBound(s, 0, |s|, 255);
    WindowWithin(s, lo, hi);
  }

  /** No window of a non-negative line holds more than the whole line. */
  lemma {:induction false} WindowWithin(s: Line, lo: int, hi: int)
    requires forall i :: 0 <= i < |s| ==> 0 <= s[i]
    ensures 0 <= Window(s, lo, hi) <= Sum(s)
  {
    WindowClamp(s, lo, hi);
    var a, b := Clamp(lo, |s|), Clamp(hi, |s|);
    if a <= b {
      WindowSplit(s, 0, a, b);
      WindowSplit(s, 0, b, |s|);
      WindowNonNegative(s, 0, a);
      WindowNonNegative(s, a, b);
      WindowNonNegative(s, b, |s|);
    } else {
      WindowNonNegative(s, 0, |s|);
    }
  }

  function Clamp(i: int, n: nat): int {
    if i < 0 then 0 else if n < i then n else i
  }

  lemma {:induction false} WindowClamp(s: Line, lo: int, hi: int)
    ensures Window(s, lo, hi) == Window(s, Clamp(lo, |s|), Clamp(hi, |s|))
    decreases hi - lo
  {
    if lo < hi {
      WindowClamp(s, lo, hi - 1);
    }
  }

  /** The quotient of a full window of bytes is the filtered byte. */
  lemma StoredByte(s: Line, k: nat, x: int, sum: int, v: int)
    requires ByteLine(s) && sum == Window(s, x - k, x + k + 1) && BoxedAt(s, k, x, v)
    ensures IsByte(sum / (2 * k + 1)) && sum / (2 * k + 1) == v
  {
    BoxPeak(s, k, x, 255);
  }

  /** One step of the running sum. */
  lemma WindowSlide(s: Line, k: nat, x: int)
    ensures Window(s, x - k, x + k + 1) == Window(s, x - 1 - k, x + k) + Padded(s, x + k) - Padded(s, x - k - 1)
  {
    WindowDropFirst(s, x - 1 - k, x + k + 1);
  }

  lemma {:induction false} WindowSplit(s: Line, lo: int, mid: int, hi: int)
    requires lo <= mid <= hi
    ensures Window(s, lo, hi) == Window(s, lo, mid) + Window(s, mid, hi)
    decreases hi - mid
  {
    if mid < hi {
      WindowSplit(s, lo, mid, hi - 1);
    }
  }

  lemma {:induction false} WindowNonNegative(s: Line, lo: int, hi: int)
    requires forall i :: 0 <= i < |s| ==> 0 <= s[i]
    ensures 0 <= Window(s, lo, hi)
    decreases hi - lo
  {
    if lo < hi {
      WindowNonNegative(s, lo, hi - 1);
    }
  }

  /** The peak never rises, so what is stored back always fits its byte. */
  lemma BoxPeak(s: Line, k: nat, x: int, peak: int)
    requires forall i :: 0 <= i < |s| ==> 0 <= s[i] <= peak
    requires 0 <= peak
    ensures 0 <= Box(s, k, x) <= peak
  {
    WindowBound(s, x - k, x + k + 1, peak);
    DivBound(Window(s, x - k, x + k + 1), 2 * k + 1, peak);
  }

  ghost predicate Below(s: Line, t: Line) {
    |s| == |t| && forall i :: 0 <= i < |s| ==> s[i] <= t[i]
  }

  lemma {:induction false} WindowMonotone(s: Line, t: Line, lo: int, hi: int)
    requires Below(s, t)
    ensures Window(s, lo, hi) <= Window(t, lo, hi)
    decreases hi - lo
  {
    if lo < hi {
      WindowMonotone(s, t, lo, hi - 1);
    }
  }

  lemma DivMonotone(a: int, b: int, d: int)
    requires a <= b && 0 < d
    ensures a / d <= b / d
  {
    MulStep(d, b / d, a / d);
  }

  lemma BoxLineMonotone(s: Line, t: Line, k: nat)
    requires Below(s, t)
    ensures Below(BoxLine(s, k), BoxLine(t, k))
  {
    forall x | 0 <= x < |s| ensures BoxLine(s, k)[x] <= BoxLine(t, k)[x] {
      WindowMonotone(s, t, x - k, x + k + 1);
      DivMonotone(Window(s, x - k, x + k + 1), Window(t, x - k, x + k + 1), 2 * k + 1);
    }
  }

  /** Equal pixels within k of x give equal results at x. */
  lemma BoxLocal(s: Line, t: Line, k: nat, x: int)
    requires |s| == |t|
    requires forall i :: 0 <= i < |s| && x - k <= i <= x + k ==> s[i] == t[i]
    ensures Box(s, k, x) == Box(t, k, x)
  {
    WindowLocal(s, t, x - k, x + k + 1);
  }

  lemma {:induction false} WindowLocal(s: Line, t: Line, lo: int, hi: int)
    requires |s| == |t|
    requires forall i :: 0 <= i < |s| && lo <= i < hi ==> s[i] == t[i]
    ensures Window(s, lo, hi) == Window(t, lo, hi)
    decreases hi - lo
  {
    if lo < hi {
      WindowLocal(s, t, lo, hi - 1);
    }
  }

  /** The sum over the first m positions x of the windows [x + a, x + b). */
  function WindowTotals(s: Line, a: int, b: int, m: nat): int {
    if m == 0 then 0 else WindowTotals(s, a, b, m - 1) + Window(s, m - 1 + a, m - 1 + b)
  }

  /** Exchanging the order of summation: widening every window by one position adds one
      shifted copy of the line. */
  lemma {:induction false} TotalsWiden(s: Line, a: int, b: int, m: nat)
    requires a <= b
    ensures WindowTotals(s, a, b + 1, m) == WindowTotals(s, a, b, m) + Window(s, b, b + m)
  {
    if 0 < m {
      TotalsWiden(s, a, b, m - 1);
    }
  }

  lemma {:induction false} TotalsBound(s: Line, a: int, b: int, m: nat)
    requires forall i :: 0 <= i < |s| ==> 0 <= s[i]
    requires a <= b
    ensures WindowTotals(s, a, b, m) <= (b - a) * Sum(s)
    decreases b - a
  {
    if a < b {
      TotalsBound(s, a, b - 1, m);
      TotalsWiden(s, a, b - 1, m);
      WindowWithin(s, b - 1, b - 1 + m);
      assert (b - a) * Sum(s) == (b - 1 - a) * Sum(s) + Sum(s);
    } else {
      TotalsEmpty(s, a, m);
    }
  }

  lemma {:induction false} TotalsEmpty(s: Line, a: int, m: nat)
    ensures WindowTotals(s, a, a, m) == 0
  {
    if 0 < m {
      TotalsEmpty(s, a, m - 1);
    }
  }

  lemma AddQuotient(d: nat, a: int, n: int)
    requires 0 < d
    ensures d * (a + n / d) <= d * a + n
  {
    var q := n / d;
    assert d * (a + q) == d * a + d * q;
  }

  lemma {:induction false} BoxLinePrefix(s: Line, k: nat, m: nat)
    requires m <= |s|
    ensures (2 * k + 1) * Window(BoxLine(s, k), 0, m) <= WindowTotals(s, 0 - k, k + 1, m)
  {
    if 0 < m {
      BoxLinePrefix(s, k, m - 1);
      var n := Window(s, m - 1 - k, m - 1 + k + 1);
      assert BoxLine(s, k)[m - 1] == n / (2 * k + 1);
      AddQuotient(2 * k + 1, Window(BoxLine(s, k), 0, m - 1), n);
    }
  }

  /** Blurring a line never creates ink. */
  lemma BoxLineMass(s: Line, k: nat)
    requires forall i :: 0 <= i < |s| ==> 0 <= s[i]
    ensures Sum(BoxLine(s, k)) <= Sum(s)
  {
    BoxLinePrefix(s, k, |s|);
    TotalsBound(s, 0 - k, k + 1, |s|);
    var d := 2 * k + 1;
    MulStep(d, Sum(s), Sum(BoxLine(s, k)));
  }

  // ---------- the image ----------

  function BoxRows(img: Image, k: nat): (r: Image)
    ensures |r| == |img|
  {
    seq(|img|, y requires 0 <= y < |img| => BoxLine(img[y], k))
  }

  /** Column x of the image as a line, from the top. */
  function Column(img: Image, w: nat, x: nat): (r: Line)
    requires Rect(img, w, |img|) && x < w
    ensures |r| == |img|
  {
    seq(|img|, y requires 0 <= y < |img| => img[y][x])
  }

  function Transpose(img: Image, w: nat): (r: Image)
    requires Rect(img, w, |img|)
    ensures Rect(r, |img|, w)
  {
    seq(w, x requires 0 <= x < w => Column(img, w, x))
  }

  function BoxColumns(img: Image, w: nat, k: nat): (r: Image)
    requires Rect(img, w, |img|)
    ensures Rect(r, w, |img|)
  {
    Transpose(BoxRows(Transpose(img, w), k), |img|)
  }

  /** One round: average along the rows, then along the columns. */
  function Round(img: Image, w: nat, k: nat): (r: Image)
    requires Rect(img, w, |img|)
    ensures Rect(r, w, |img|)
  {
    BoxColumns(BoxRows(img, k), w, k)
  }

  function Shadow(img: Image, w: nat, k: nat): (r: Image)
    requires Rect(img, w, |img|)
    ensures Rect(r, w, |img|)
  {
    Round(Round(img, w, k), w, k)
  }

  /** What a column pass computes, pixel by pixel. */
  lemma BoxColumnsAt(img: Image, w: nat, h: nat, k: nat, x: nat, y: nat)
    requires Rect(img, w, h) && x < w && y < h
    ensures BoxColumns(img, w, k)[y][x] == Box(Column(img, w, x), k, y)
  {
    var t := Transpose(img, w);
    assert t[x] == Column(img, w, x);
    assert BoxRows(t, k)[x] == BoxLine(t[x], k);
  }

  // ---------- the filter pixel by pixel ----------

  /** The averages of all rows around place x: column x after the rows have been averaged. */
  function RowMeans(img: Image, k: nat, x: int): (r: Line)
    ensures |r| == |img|
  {
    seq(|img|, j requires 0 <= j < |img| => Window(img[j], x - k, x + k + 1) / (2 * k + 1))
  }

  /** The naive value of a pixel: the mean, over the rows around y, of the means around x. */
  function MeanOfMeans(img: Image, k: nat, x: int, y: int): int {
    Window(RowMeans(img, k, x), y - k, y + k + 1) / (2 * k + 1)
  }

  function MeanImage(img: Image, w: nat, k: nat): (r: Image)
    ensures Rect(r, w, |img|)
  {
    seq(|img|, y => seq(w, x => MeanOfMeans(img, k, x, y)))
  }

  /** One round gives every pixel the mean of the means around it, rows first. */
  lemma RoundAt(img: Image, w: nat, k: nat, x: nat, y: nat)
    requires Rect(img, w, |img|) && x < w && y < |img|
    ensures Round(img, w, k)[y][x] == MeanOfMeans(img, k, x, y)
  {
    var rows := BoxRows(img, k);
    BoxColumnsAt(rows, w, |img|, k, x, y);
    forall j | 0 <= j < |img| ensures Column(rows, w, x)[j] == RowMeans(img, k, x)[j] {
      assert rows[j] == BoxLine(img[j], k);
    }
    assert Column(rows, w, x) == RowMeans(img, k, x);
  }

  lemma RoundIsMean(img: Image, w: nat, k: nat)
    requires Rect(img, w, |img|)
    ensures Round(img, w, k) == MeanImage(img, w, k)
  {
    forall y | 0 <= y < |img| ensures Round(img, w, k)[y] == MeanImage(img, w, k)[y] {
      forall x | 0 <= x < w ensures Round(img, w, k)[y][x] == MeanImage(img, w, k)[y][x] {
        RoundAt(img, w, k, x, y);
      }
    }
  }

  /** Two rounds apply that twice. */
  lemma ShadowIsMean(img: Image, w: nat, k: nat)
    requires Rect(img, w, |img|)
    ensures Shadow(img, w, k) == MeanImage(MeanImage(img, w, k), w, k)
  {
    RoundIsMean(img, w, k);
    RoundIsMean(Round(img, w, k), w, k);
  }

  /** A dot in a column three pixels high spreads upwards and downwards. */
  lemma ShadowOfDot()
    ensures Shadow([[0], [128], [0]], 1, 1) == [[2], [4], [2]]
  {
    ShadowIsMean([[0], [128], [0]], 1, 1);
    DotOnce(0, 128, 0);
    assert MeanImage([[0], [128], [0]], 1, 1) == [[14], [14], [14]];
    DotOnce(14, 14, 14);
  }

  lemma DotOnce(a: nat, b: nat, c: nat)
    ensures MeanImage([[a], [b], [c]], 1, 1) ==
      [[(a / 3 + b / 3) / 3], [(a / 3 + b / 3 + c / 3) / 3], [(b / 3 + c / 3) / 3]]
  {
    var img := [[a], [b], [c]];
    forall j | 0 <= j < 3 ensures Window(img[j], -1, 2) == img[j][0] {
      WindowOfThree(img[j], 0);
    }
    var means := [a / 3, b / 3, c / 3];
    assert RowMeans(img, 1, 0) == means;
    forall y | 0 <= y < 3
      ensures MeanOfMeans(img, 1, 0, y) == (Padded(means, y - 1) + Padded(means, y) + Padded(means, y + 1)) / 3
    {
      WindowOfThree(means, y);
    }
    var image := MeanImage(img, 1, 1);
    assert image[0] == [MeanOfMeans(img, 1, 0, 0)] && image[1] == [MeanOfMeans(img, 1, 0, 1)] && image[2] == [MeanOfMeans(img, 1, 0, 2)];
    assert image == [image[0], image[1], image[2]];
  }

  lemma WindowOfThree(s: Line, x: int)
    ensures Window(s, x - 1, x + 2) == Padded(s, x - 1) + Padded(s, x) + Padded(s, x + 1)
  {
    assert Window(s, x - 1, x) == Padded(s, x - 1);
    assert Window(s, x - 1, x + 1) == Window(s, x - 1, x) + Padded(s, x);
  }

  // ---------- bytes, peak and monotonicity ----------

  ghost predicate Peak(img: Image, w: nat, h: nat, peak: int) {
    Rect(img, w, h) && forall x, y :: 0 <= y < h && 0 <= x < w ==> 0 <= img[y][x] <= peak
  }

  lemma BoxRowsPeak(img: Image, w: nat, h: nat, k: nat, peak: int)
    requires Peak(img, w, h, peak) && 0 <= peak
    ensures Peak(BoxRows(img, k), w, h, peak)
  {
    forall x, y | 0 <= y < h && 0 <= x < w ensures 0 <= BoxRows(img, k)[y][x] <= peak {
      BoxPeak(img[y], k, x, peak);
    }
  }

  lemma TransposePeak(img: Image, w: nat, h: nat, peak: int)
    requires Peak(img, w, h, peak)
    ensures Peak(Transpose(img, w), h, w, peak)
  {
  }

  lemma RoundPeak(img: Image, w: nat, h: nat, k: nat, peak: int)
    requires Peak(img, w, h, peak) && 0 <= peak
    ensures Peak(BoxRows(img, k), w, h, peak)
    ensures Peak(Round(img, w, k), w, h, peak)
  {
    var rows := BoxRows(img, k);
    BoxRowsPeak(img, w, h, k, peak);
    TransposePeak(rows, w, h, peak);
    BoxRowsPeak(Transpose(rows, w), h, w, k, peak);
    TransposePeak(BoxRows(Transpose(rows, w), k), h, w, peak);
  }

  /** The darkest pixel of the shadow is no darker than the darkest pixel of the mask. */
  lemma ShadowPeak(img: Image, w: nat, h: nat, k: nat, peak: int)
    requires Peak(img, w, h, peak) && 0 <= peak
    ensures Peak(Shadow(img, w, k), w, h, peak)
  {
    RoundPeak(img, w, h, k, peak);
    RoundPeak(Round(img, w, k), w, h, k, peak);
  }

  ghost predicate Lighter(a: Image, b: Image, w: nat, h: nat) {
    Rect(a, w, h) && Rect(b, w, h) && forall y :: 0 <= y < h ==> Below(a[y], b[y])
  }

  lemma BoxRowsMonotone(a: Image, b: Image, w: nat, h: nat, k: nat)
    requires Lighter(a, b, w, h)
    ensures Lighter(BoxRows(a, k), BoxRows(b, k), w, h)
  {
    forall y | 0 <= y < h ensures Below(BoxRows(a, k)[y], BoxRows(b, k)[y]) {
      BoxLineMonotone(a[y], b[y], k);
    }
  }

  lemma RoundMonotone(a: Image, b: Image, w: nat, h: nat, k: nat)
    requires Lighter(a, b, w, h)
    ensures Lighter(Round(a, w, k), Round(b, w, k), w, h)
  {
    var ra, rb := BoxRows(a, k), BoxRows(b, k);
    BoxRowsMonotone(a, b, w, h, k);
    var ta, tb := Transpose(ra, w), Transpose(rb, w);
    assert Lighter(ta, tb, h, w);
    BoxRowsMonotone(ta, tb, h, w, k);
  }

  /** A pointwise lighter mask gives a pointwise lighter shadow. */
  lemma ShadowMonotone(a: Image, b: Image, w: nat, h: nat, k: nat)
    requires Lighter(a, b, w, h)
    ensures Lighter(Shadow(a, w, k), Shadow(b, w, k), w, h)
  {
    RoundMonotone(a, b, w, h, k);
    RoundMonotone(Round(a, w, k), Round(b, w, k), w, h, k);
  }

  // ---------- total ink ----------

  /** The total of the first n rows. */
  function RowTotals(img: Image, n: nat): int
    requires n <= |img|
  {
    if n == 0 then 0 else RowTotals(img, n - 1) + Sum(img[n - 1])
  }

  function Ink(img: Image): int {
    RowTotals(img, |img|)
  }

  lemma {:induction false} BoxRowsMass(img: Image, w: nat, h: nat, k: nat, n: nat)
    requires Rect(img, w, h) && n <= h
    requires forall x, y :: 0 <= y < h && 0 <= x < w ==> 0 <= img[y][x]
    ensures RowTotals(BoxRows(img, k), n) <= RowTotals(img, n)
  {
    if 0 < n {
      BoxRowsMass(img, w, h, k, n - 1);
      BoxLineMass(img[n - 1], k);
    }
  }

  /** The first n entries of each of the first m columns, column by column. */
  function ColumnTotals(img: Image, w: nat, n: nat, m: nat): int
    requires Rect(img, w, |img|) && n <= |img| && m <= w
  {
    if m == 0 then 0 else ColumnTotals(img, w, n, m - 1) + Window(Column(img, w, m - 1), 0, n)
  }

  lemma {:induction false} ColumnTotalsStep(img: Image, w: nat, n: nat, m: nat)
    requires Rect(img, w, |img|) && 0 < n <= |img| && m <= w
    ensures ColumnTotals(img, w, n, m) == ColumnTotals(img, w, n - 1, m) + Window(img[n - 1], 0, m)
  {
    if 0 < m {
      ColumnTotalsStep(img, w, n, m - 1);
    }
  }

  lemma {:induction false} ColumnTotalsNone(img: Image, w: nat, m: nat)
    requires Rect(img, w, |img|) && m <= w
    ensures ColumnTotals(img, w, 0, m) == 0
  {
    if 0 < m {
      ColumnTotalsNone(img, w, m - 1);
    }
  }

  lemma {:induction false} RowsAreColumns(img: Image, w: nat, n: nat)
    requires Rect(img, w, |img|) && n <= |img|
    ensures RowTotals(img, n) == ColumnTotals(img, w, n, w)
  {
    if 0 < n {
      RowsAreColumns(img, w, n - 1);
      ColumnTotalsStep(img, w, n, w);
    } else {
      ColumnTotalsNone(img, w, w);
    }
  }

  lemma {:induction false} TransposedRows(img: Image, w: nat, m: nat)
    requires Rect(img, w, |img|) && m <= w
    ensures RowTotals(Transpose(img, w), m) == ColumnTotals(img, w, |img|, m)
  {
    if 0 < m {
      TransposedRows(img, w, m - 1);
      assert Transpose(img, w)[m - 1] == Column(img, w, m - 1);
    }
  }

  /** Summing by rows and summing by columns agree. */
  lemma InkTranspose(img: Image, w: nat)
    requires Rect(img, w, |img|)
    ensures Ink(Transpose(img, w)) == Ink(img)
  {
    RowsAreColumns(img, w, |img|);
    TransposedRows(img, w, w);
  }

  lemma RoundMass(img: Image, w: nat, h: nat, k: nat, peak: int)
    requires Peak(img, w, h, peak) && 0 <= peak
    ensures Ink(Round(img, w, k)) <= Ink(BoxRows(img, k)) <= Ink(img)
  {
    var rows := BoxRows(img, k);
    BoxRowsMass(img, w, h, k, h);
    BoxRowsPeak(img, w, h, k, peak);
    var t := Transpose(rows, w);
    InkTranspose(rows, w);
    TransposePeak(rows, w, h, peak);
    BoxRowsMass(t, h, w, k, w);
    InkTranspose(BoxRows(t, k), h);
  }

  /** After every pass, and so after both rounds, there is at most the ink there was. */
  lemma ShadowMass(img: Image, w: nat, h: nat, k: nat)
    requires ByteImage(img, w, h)
    ensures Ink(Shadow(img, w, k)) <= Ink(BoxRows(Round(img, w, k), k))
         <= Ink(Round(img, w, k)) <= Ink(BoxRows(img, k)) <= Ink(img)
  {
    assert Peak(img, w, h, 255) by {
      forall x, y | 0 <= y < h && 0 <= x < w ensures 0 <= img[y][x] <= 255 {
        assert ByteLine(img[y]) && IsByte(img[y][x]);
      }
    }
    RoundMass(img, w, h, k, 255);
    RoundPeak(img, w, h, k, 255);
    RoundMass(Round(img, w, k), w, h, k, 255);
  }

  // ---------- locality ----------

  /** The images agree at every pixel within dx and dy of (x, y). */
  ghost predicate AgreeNear(a: Image, b: Image, w: nat, h: nat, x: int, y: int, dx: int, dy: int) {
    Rect(a, w, h) && Rect(b, w, h) &&
    forall j, i :: 0 <= j < h && 0 <= i < w && y - dy <= j <= y + dy && x - dx <= i <= x + dx
      ==> a[j][i] == b[j][i]
  }

  lemma BoxRowsLocal(a: Image, b: Image, w: nat, h: nat, k: nat, x: int, y: int, dx: nat, dy: nat)
    requires AgreeNear(a, b, w, h, x, y, dx + k, dy)
    ensures AgreeNear(BoxRows(a, k), BoxRows(b, k), w, h, x, y, dx, dy)
  {
    forall j, i | 0 <= j < h && 0 <= i < w && y - dy <= j <= y + dy && x - dx <= i <= x + dx
      ensures BoxRows(a, k)[j][i] == BoxRows(b, k)[j][i]
    {
      BoxLocal(a[j], b[j], k, i);
    }
  }

  lemma RoundLocal(a: Image, b: Image, w: nat, h: nat, k: nat, x: int, y: int, dx: nat, dy: nat)
    requires AgreeNear(a, b, w, h, x, y, dx + k, dy + k)
    ensures AgreeNear(Round(a, w, k), Round(b, w, k), w, h, x, y, dx, dy)
  {
    var ra, rb := BoxRows(a, k), BoxRows(b, k);
    BoxRowsLocal(a, b, w, h, k, x, y, dx, dy + k);
    var ta, tb := Transpose(ra, w), Transpose(rb, w);
    assert AgreeNear(ta, tb, h, w, y, x, dy + k, dx);
    BoxRowsLocal(ta, tb, h, w, k, y, x, dy, dx);
  }

  /** A shadow pixel depends only on mask pixels within twice the spread on each axis. */
  lemma ShadowLocal(a: Image, b: Image, w: nat, h: nat, k: nat, x: nat, y: nat)
    requires x < w && y < h
    requires AgreeNear(a, b, w, h, x, y, 2 * k, 2 * k)
    ensures Shadow(a, w, k)[y][x] == Shadow(b, w, k)[y][x]
  {
    RoundLocal(a, b, w, h, k, x, y, k, k);
    RoundLocal(Round(a, w, k), Round(b, w, k), w, h, k, x, y, 0, 0);
  }

  /** Where the mask is empty within twice the spread, the shadow is empty. */
  lemma ShadowMargin(a: Image, w: nat, h: nat, k: nat, x: nat, y: nat)
    requires Rect(a, w, h) && x < w && y < h
    requires forall j, i :: 0 <= j < h && 0 <= i < w && y - 2 * k <= j <= y + 2 * k && x - 2 * k <= i <= x + 2 * k
               ==> a[j][i] == 0
    ensures Shadow(a, w, k)[y][x] == 0
  {
    var clear := seq(h, j => seq(w, i => 0));
    ShadowLocal(a, clear, w, h, k, x, y);
    ShadowPeak(clear, w, h, k, 0);
  }

  // ---------- the margin around the path's bounds ----------

  /** Place i of the line t, counted from o, shows s, and s is empty there if within m of its
      ends. */
  ghost predicate PlacedAt(s: Line, t: Line, o: int, m: int, i: int) {
    Padded(t, i + o) == Padded(s, i) && (i < m || |s| - m <= i ==> Padded(s, i) == 0)
  }

  /** The line t shows s from place o on and is empty elsewhere. */
  ghost predicate Placed(s: Line, t: Line, o: int, m: int) {
    forall i :: PlacedAt(s, t, o, m, i)
  }

  lemma {:induction false} WindowPlaced(s: Line, t: Line, o: int, m: int, lo: int, hi: int)
    requires Placed(s, t, o, m)
    ensures Window(t, lo + o, hi + o) == Window(s, lo, hi)
    decreases hi - lo
  {
    if lo < hi {
      WindowPlaced(s, t, o, m, lo, hi - 1);
      assert PlacedAt(s, t, o, m, hi - 1);
    }
  }

  lemma {:induction false} WindowAtEnd(s: Line, t: Line, o: int, m: int, lo: int, hi: int)
    requires Placed(s, t, o, m) && (hi <= m || |s| - m <= lo)
    ensures Window(s, lo, hi) == 0
    decreases hi - lo
  {
    if lo < hi {
      WindowAtEnd(s, t, o, m, lo, hi - 1);
      assert PlacedAt(s, t, o, m, hi - 1);
    }
  }

  /** Averaging keeps a line in its place, as its content spreads by at most k. */
  lemma BoxLinePlaced(s: Line, t: Line, o: nat, k: nat, m: nat)
    requires Placed(s, t, o, m + k) && o + |s| <= |t|
    ensures Placed(BoxLine(s, k), BoxLine(t, k), o, m)
  {
    forall i ensures PlacedAt(BoxLine(s, k), BoxLine(t, k), o, m, i) {
      WindowPlaced(s, t, o, m + k, i - k, i + k + 1);
      if i < m || |s| - m <= i {
        WindowAtEnd(s, t, o, m + k, i - k, i + k + 1);
        DivBound(0, 2 * k + 1, 0);
      }
    }
  }

  /** Row y of an image, and an empty row beyond its edges. */
  function RowAt(a: Image, w: nat, y: int): (r: Line)
    requires Rect(a, w, |a|)
    ensures |r| == w
  {
    if 0 <= y < |a| then a[y] else seq(w, _ => 0)
  }

  /** The image b shows a from (ox, oy) on and is empty elsewhere, and a is empty within mx of
      its sides and my of its top and bottom. */
  datatype Embedding = Embedding(ox: nat, oy: nat, mx: int, my: int)

  function Flipped(e: Embedding): Embedding {
    Embedding(e.oy, e.ox, e.my, e.mx)
  }

  ghost predicate Embedded(a: Image, w: nat, b: Image, wb: nat, e: Embedding) {
    && Rect(a, w, |a|) && Rect(b, wb, |b|) && e.ox + w <= wb && e.oy + |a| <= |b|
    && forall y :: EmbeddedRow(a, w, b, wb, e, y)
  }

  ghost predicate EmbeddedRow(a: Image, w: nat, b: Image, wb: nat, e: Embedding, y: int)
    requires Rect(a, w, |a|) && Rect(b, wb, |b|)
  {
    && Placed(RowAt(a, w, y), RowAt(b, wb, y + e.oy), e.ox, e.mx)
    && (y < e.my || |a| - e.my <= y ==> Blank(RowAt(a, w, y)))
  }

  ghost predicate Blank(s: Line) {
    forall i :: 0 <= i < |s| ==> s[i] == 0
  }

  lemma {:induction false} WindowOfBlank(s: Line, lo: int, hi: int)
    requires Blank(s)
    ensures Window(s, lo, hi) == 0
    decreases hi - lo
  {
    if lo < hi {
      WindowOfBlank(s, lo, hi - 1);
    }
  }

  lemma BoxLineBlank(s: Line, k: nat)
    requires Blank(s)
    ensures Blank(BoxLine(s, k))
  {
    forall x | 0 <= x < |s| ensures BoxLine(s, k)[x] == 0 {
      WindowOfBlank(s, x - k, x + k + 1);
      DivBound(0, 2 * k + 1, 0);
    }
  }

  /** Averaging row by row averages the empty rows around the image as well. */
  lemma RowOfBoxed(a: Image, w: nat, k: nat, y: int)
    requires Rect(a, w, |a|)
    ensures RowAt(BoxRows(a, k), w, y) == BoxLine(RowAt(a, w, y), k)
  {
    if y < 0 || |a| <= y {
      BoxLineBlank(RowAt(a, w, y), k);
      assert forall x :: 0 <= x < w ==> BoxLine(RowAt(a, w, y), k)[x] == 0;
    }
  }

  lemma BoxRowsEmbedded(a: Image, w: nat, b: Image, wb: nat, k: nat, e: Embedding)
    requires Embedded(a, w, b, wb, e.(mx := e.mx + k)) && 0 <= e.mx
    ensures Embedded(BoxRows(a, k), w, BoxRows(b, k), wb, e)
  {
    forall y ensures EmbeddedRow(BoxRows(a, k), w, BoxRows(b, k), wb, e, y) {
      assert EmbeddedRow(a, w, b, wb, e.(mx := e.mx + k), y);
      BoxLinePlaced(RowAt(a, w, y), RowAt(b, wb, y + e.oy), e.ox, k, e.mx);
      RowOfBoxed(a, w, k, y);
      RowOfBoxed(b, wb, k, y + e.oy);
      if y < e.my || |a| - e.my <= y {
        BoxLineBlank(RowAt(a, w, y), k);
      }
    }
  }

  lemma TransposePixel(a: Image, w: nat, x: int, y: int)
    requires Rect(a, w, |a|)
    ensures Padded(RowAt(Transpose(a, w), |a|, x), y) == Padded(RowAt(a, w, y), x)
  {
  }

  lemma ColumnPlacedAt(a: Image, w: nat, b: Image, wb: nat, e: Embedding, x: int, y: int)
    requires Embedded(a, w, b, wb, e)
    ensures PlacedAt(RowAt(Transpose(a, w), |a|, x), RowAt(Transpose(b, wb), |b|, x + e.ox), e.oy, e.my, y)
    ensures x < e.mx || w - e.mx <= x ==> Padded(RowAt(Transpose(a, w), |a|, x), y) == 0
  {
    assert EmbeddedRow(a, w, b, wb, e, y);
    assert PlacedAt(RowAt(a, w, y), RowAt(b, wb, y + e.oy), e.ox, e.mx, x);
    TransposePixel(a, w, x, y);
    TransposePixel(b, wb, x + e.ox, y + e.oy);
  }

  lemma ColumnEmbedded(a: Image, w: nat, b: Image, wb: nat, e: Embedding, x: int)
    requires Embedded(a, w, b, wb, e)
    ensures EmbeddedRow(Transpose(a, w), |a|, Transpose(b, wb), |b|, Flipped(e), x)
  {
    var s, t := RowAt(Transpose(a, w), |a|, x), RowAt(Transpose(b, wb), |b|, x + e.ox);
    forall y ensures PlacedAt(s, t, e.oy, e.my, y) {
      ColumnPlacedAt(a, w, b, wb, e, x, y);
    }
    if x < e.mx || w - e.mx <= x {
      forall y | 0 <= y < |a| ensures s[y] == 0 {
        ColumnPlacedAt(a, w, b, wb, e, x, y);
      }
    }
  }

  lemma TransposeEmbedded(a: Image, w: nat, b: Image, wb: nat, e: Embedding)
    requires Embedded(a, w, b, wb, e)
    ensures Embedded(Transpose(a, w), |a|, Transpose(b, wb), |b|, Flipped(e))
  {
    forall x
      ensures EmbeddedRow(Transpose(a, w), |a|, Transpose(b, wb), |b|, Flipped(e), x)
    {
      ColumnEmbedded(a, w, b, wb, e, x);
    }
  }

  lemma BoxColumnsEmbedded(a: Image, w: nat, b: Image, wb: nat, k: nat, e: Embedding)
    requires Embedded(a, w, b, wb, e.(my := e.my + k)) && 0 <= e.my
    ensures Embedded(BoxColumns(a, w, k), w, BoxColumns(b, wb, k), wb, e)
  {
    var ta, tb, wide := Transpose(a, w), Transpose(b, wb), e.(my := e.my + k);
    TransposeEmbedded(a, w, b, wb, wide);
    assert Flipped(wide) == Flipped(e).(mx := Flipped(e).mx + k);
    BoxRowsEmbedded(ta, |a|, tb, |b|, k, Flipped(e));
    TransposeEmbedded(BoxRows(ta, k), |a|, BoxRows(tb, k), |b|, Flipped(e));
    assert Flipped(Flipped(e)) == e;
  }

  lemma RoundEmbedded(a: Image, w: nat, b: Image, wb: nat, k: nat, e: Embedding)
    requires Embedded(a, w, b, wb, e.(mx := e.mx + k, my := e.my + k)) && 0 <= e.mx && 0 <= e.my
    ensures Embedded(Round(a, w, k), w, Round(b, wb, k), wb, e)
  {
    var tall := e.(my := e.my + k);
    assert tall.(mx := tall.mx + k) == e.(mx := e.mx + k, my := e.my + k);
    BoxRowsEmbedded(a, w, b, wb, k, tall);
    BoxColumnsEmbedded(BoxRows(a, k), w, BoxRows(b, k), wb, k, e);
  }

  /** A margin of twice the spread loses nothing: on any larger grid around it the same mask
      has the same shadow, and none beyond the margin. */
  lemma MarginSuffices(a: Image, w: nat, b: Image, wb: nat, k: nat, ox: nat, oy: nat)
    requires Embedded(a, w, b, wb, Embedding(ox, oy, 2 * k, 2 * k))
    ensures Embedded(Shadow(a, w, k), w, Shadow(b, wb, k), wb, Embedding(ox, oy, 0, 0))
  {
    var half, none := Embedding(ox, oy, k, k), Embedding(ox, oy, 0, 0);
    assert half.(mx := half.mx + k, my := half.my + k) == Embedding(ox, oy, 2 * k, 2 * k);
    assert none.(mx := none.mx + k, my := none.my + k) == half;
    RoundEmbedded(a, w, b, wb, k, half);
    RoundEmbedded(Round(a, w, k), w, Round(b, wb, k), wb, k, none);
  }

  // ---------- solid areas ----------

  /** Every pixel within dx and dy of (x, y) is on the image and has value v. */
  ghost predicate Solid(a: Image, w: nat, h: nat, x: int, y: int, dx: int, dy: int, v: int) {
    Rect(a, w, h) && dx <= x < w - dx && dy <= y < h - dy &&
    forall j, i :: y - dy <= j <= y + dy && x - dx <= i <= x + dx ==> a[j][i] == v
  }

  lemma {:induction false} WindowSolid(s: Line, lo: int, hi: int, v: int)
    requires 0 <= lo <= hi <= |s| && forall i :: lo <= i < hi ==> s[i] == v
    ensures Window(s, lo, hi) == (hi - lo) * v
    decreases hi - lo
  {
    if lo < hi {
      WindowSolid(s, lo, hi - 1, v);
      assert (hi - lo) * v == (hi - 1 - lo) * v + v;
    }
  }

  lemma DivExact(d: int, v: int)
    requires 0 < d
    ensures d * v / d == v
  {
    var n := d * v;
    var q := n / d;
    assert n == d * q + n % d;
    MulStep(d, q, v);
    MulStep(d, v, q);
  }

  lemma BoxRowsSolid(a: Image, w: nat, h: nat, k: nat, x: int, y: int, dx: nat, dy: nat, v: int)
    requires Solid(a, w, h, x, y, dx + k, dy, v)
    ensures Solid(BoxRows(a, k), w, h, x, y, dx, dy, v)
  {
    forall j, i | y - dy <= j <= y + dy && x - dx <= i <= x + dx ensures BoxRows(a, k)[j][i] == v {
      WindowSolid(a[j], i - k, i + k + 1, v);
      DivExact(2 * k + 1, v);
    }
  }

  lemma RoundSolid(a: Image, w: nat, h: nat, k: nat, x: int, y: int, dx: nat, dy: nat, v: int)
    requires Solid(a, w, h, x, y, dx + k, dy + k, v)
    ensures Solid(Round(a, w, k), w, h, x, y, dx, dy, v)
  {
    var rows := BoxRows(a, k);
    BoxRowsSolid(a, w, h, k, x, y, dx, dy + k, v);
    var t := Transpose(rows, w);
    assert Solid(t, h, w, y, x, dy + k, dx, v);
    BoxRowsSolid(t, h, w, k, y, x, dy, dx, v);
  }

  /** Deep inside a solid area the shadow keeps the mask's value: the divisor is exactly the
      number of pixels in a window. */
  lemma ShadowSolid(a: Image, w: nat, h: nat, k: nat, x: nat, y: nat, v: int)
    requires Solid(a, w, h, x, y, 2 * k, 2 * k, v)
    ensures Shadow(a, w, k)[y][x] == v
  {
    RoundSolid(a, w, h, k, x, y, k, k, v);
    RoundSolid(Round(a, w, k), w, h, k, x, y, 0, 0, v);
  }

  // ---------- the flat buffers ----------

  /** Where pixel (x, y) sits in a flat buffer of rows of width w. */
  function Cell(w: int, x: int, y: int): int {
    y * w + x
  }

  lemma CellBound(w: nat, h: nat, x: nat, y: nat)
    requires x < w && y < h
    ensures 0 <= Cell(w, x, y) < w * h
  {
    MulStep(w, y, h);
    MulNonNegative(y, w);
  }

  lemma CellUnique(w: nat, x: nat, y: nat, i: nat, j: nat)
    requires x < w && i < w
    ensures Cell(w, x, y) == Cell(w, i, j) ==> x == i && y == j
  {
    MulStep(w, y, j);
    MulStep(w, j, y);
  }

  function PixelAt(a: seq<int>, w: nat, h: nat, x: nat, y: nat): int
    requires |a| == w * h && x < w && y < h
  {
    CellBound(w, h, x, y);
    a[Cell(w, x, y)]
  }

  /** A flat buffer read as rows of pixels. */
  function Rows(a: seq<int>, w: nat, h: nat): (r: Image)
    requires |a| == w * h
    ensures Rect(r, w, h)
  {
    seq(h, y requires 0 <= y < h => RowOf(a, w, h, y))
  }

  function RowOf(a: seq<int>, w: nat, h: nat, y: nat): (r: Line)
    requires |a| == w * h && y < h
    ensures |r| == w
  {
    seq(w, x requires 0 <= x < w => PixelAt(a, w, h, x, y))
  }

  lemma RowsAre(a: seq<int>, w: nat, h: nat, img: Image)
    requires |a| == w * h && Rect(img, w, h)
    requires forall x, y :: 0 <= x < w && 0 <= y < h ==> PixelAt(a, w, h, x, y) == img[y][x]
    ensures Rows(a, w, h) == img
  {
    forall y | 0 <= y < h ensures Rows(a, w, h)[y] == img[y] {
      assert forall x :: 0 <= x < w ==> Rows(a, w, h)[y][x] == PixelAt(a, w, h, x, y) == img[y][x];
    }
  }

  function ToInts(a: seq<Byte>): (r: seq<int>)
    ensures |r| == |a| && forall i :: 0 <= i < |a| ==> r[i] == a[i]
  {
    seq(|a|, i requires 0 <= i < |a| => a[i])
  }

  // A line of a flat buffer is given by where each of its n pixels sits.

  ghost predicate Inside(cell: int -> int, n: nat, length: nat) {
    forall i :: 0 <= i < n ==> 0 <= cell(i) < length
  }

  ghost predicate Apart(cell: int -> int, n: nat) {
    forall i, j :: 0 <= i < j < n ==> cell(i) != cell(j)
  }

  ghost predicate Outside(cell: int -> int, n: nat, c: int) {
    forall i :: 0 <= i < n ==> c != cell(i)
  }

  ghost predicate Filtered(line: Line, k: nat, goal: Line) {
    |goal| == |line| && forall i {:trigger BoxedAt(line, k, i, goal[i])} :: 0 <= i < |line| ==> BoxedAt(line, k, i, goal[i])
  }

  ghost predicate BoxedAt(line: Line, k: nat, i: int, v: int) {
    v == Box(line, k, i)
  }

  /** One step of the running sum takes in the pixel that enters the window and drops the one
      that leaves it. */
  method Slide(src: array<Byte>, cell: int -> int, n: nat, spread: nat, ghost line: Line, x: int, sum: int)
      returns (next: int)
    requires 0 - spread <= x < n && Inside(cell, n, src.Length)
    requires |line| == n && forall i :: 0 <= i < n ==> src[cell(i)] == line[i]
    requires sum == Window(line, x - 1 - spread, x + spread)
    ensures next == Window(line, x - spread, x + spread + 1)
  {
    WindowSlide(line, spread, x);
    next := sum;
    if x + spread < n {
      next := next + src[cell(x + spread)];
    }
    if x - spread - 1 >= 0 {
      next := next - src[cell(x - spread - 1)];
    }
  }

  /** The running sum along one line. */
  method SlideLine(src: array<Byte>, dst: array<Byte>, cell: int -> int, n: nat, spread: nat,
                   ghost line: Line, ghost goal: Line)
    requires src != dst && src.Length == dst.Length
    requires Inside(cell, n, src.Length) && Apart(cell, n)
    requires ByteLine(line) && |line| == n && forall i :: 0 <= i < n ==> src[cell(i)] == line[i]
    requires Filtered(line, spread, goal)
    modifies dst
    ensures forall i :: 0 <= i < n ==> dst[cell(i)] == goal[i]
    ensures forall c :: 0 <= c < dst.Length && Outside(cell, n, c) ==> dst[c] == old(dst[c])
  {
    var sum := 0;
    var x: int := 0 - spread;
    WindowClamp(line, x - 1 - spread, 0);
    while x < n
      invariant 0 - spread <= x <= n
      invariant sum == Window(line, x - 1 - spread, x + spread)
      invariant forall i :: 0 <= i < x ==> dst[cell(i)] == goal[i]
      invariant forall c :: 0 <= c < dst.Length && Outside(cell, n, c) ==> dst[c] == old(dst[c])
    {
      sum := Slide(src, cell, n, spread, line, x, sum);
      if x >= 0 {
        StoredByte(line, spread, x, sum, goal[x]);
        dst[cell(x)] := sum / (2 * spread + 1);
      }
      x := x + 1;
    }
  }

  /** A pixel that is not on the line just written keeps its value. */
  lemma KeptPixel(before: seq<int>, after: seq<int>, w: nat, h: nat, cell: int -> int, n: nat, x: nat, y: nat)
    requires |before| == |after| == w * h && x < w && y < h
    requires forall c :: 0 <= c < w * h && Outside(cell, n, c) ==> after[c] == before[c]
    requires forall i :: 0 <= i < n ==> cell(i) != Cell(w, x, y)
    ensures PixelAt(after, w, h, x, y) == PixelAt(before, w, h, x, y)
  {
    CellBound(w, h, x, y);
    assert Outside(cell, n, Cell(w, x, y));
  }

  /** The pixels on lines 0 to y agree with the goal once line y has been written. */
  lemma RowWritten(before: seq<int>, after: seq<int>, w: nat, h: nat, cell: int -> int, y: nat, goal: Image)
    requires |before| == |after| == w * h && Rect(goal, w, h) && y < h
    requires forall x :: 0 <= x < w ==> cell(x) == Cell(w, x, y)
    requires forall x, j :: 0 <= x < w && 0 <= j < y ==> PixelAt(before, w, h, x, j) == goal[j][x]
    requires forall c :: 0 <= c < w * h && Outside(cell, w, c) ==> after[c] == before[c]
    requires forall x :: 0 <= x < w ==> 0 <= cell(x) < w * h && after[cell(x)] == goal[y][x]
    ensures forall x, j :: 0 <= x < w && 0 <= j < y + 1 ==> PixelAt(after, w, h, x, j) == goal[j][x]
  {
    forall x, j | 0 <= x < w && 0 <= j < y + 1 ensures PixelAt(after, w, h, x, j) == goal[j][x] {
      if j < y {
        forall i | 0 <= i < w ensures cell(i) != Cell(w, x, j) {
          CellUnique(w, x, j, i, y);
        }
        KeptPixel(before, after, w, h, cell, w, x, j);
      } else {
        assert cell(x) == Cell(w, x, y);
      }
    }
  }

  method HorizontalPass(alpha: array<Byte>, scratch: array<Byte>, w: nat, h: nat, spread: nat)
    requires alpha != scratch && alpha.Length == scratch.Length == w * h
    modifies scratch
    ensures Rows(ToInts(scratch[..]), w, h) == BoxRows(Rows(ToInts(alpha[..]), w, h), spread)
  {
    ghost var img := Rows(ToInts(alpha[..]), w, h);
    ghost var goal := BoxRows(img, spread);
    for y := 0 to h
      invariant forall x, j :: 0 <= x < w && 0 <= j < y ==> PixelAt(ToInts(scratch[..]), w, h, x, j) == goal[j][x]
    {
      label before:
      var cell := (x: int) => Cell(w, x, y);
      LineInside(cell, w, h, w, x => x, x => y);
      assert forall x :: 0 <= x < w ==> alpha[cell(x)] == PixelAt(ToInts(alpha[..]), w, h, x, y) == img[y][x];
      SlideLine(alpha, scratch, cell, w, spread, img[y], goal[y]);
      RowWritten(old@before(ToInts(scratch[..])), ToInts(scratch[..]), w, h, cell, y, goal);
    }
    RowsAre(ToInts(scratch[..]), w, h, goal);
  }

  /** Pixels at distinct places of the image sit at distinct cells inside the buffer. */
  lemma LineInside(cell: int -> int, w: nat, h: nat, n: nat, x: int -> int, y: int -> int)
    requires forall i :: 0 <= i < n ==> 0 <= x(i) < w && 0 <= y(i) < h && cell(i) == Cell(w, x(i), y(i))
    requires forall i, j :: 0 <= i < j < n ==> x(i) != x(j) || y(i) != y(j)
    ensures Inside(cell, n, w * h) && Apart(cell, n)
  {
    forall i | 0 <= i < n ensures 0 <= cell(i) < w * h {
      CellBound(w, h, x(i), y(i));
    }
    forall i, j | 0 <= i < j < n ensures cell(i) != cell(j) {
      CellUnique(w, x(i), y(i), x(j), y(j));
    }
  }

  method VerticalPass(scratch: array<Byte>, alpha: array<Byte>, w: nat, h: nat, spread: nat)
    requires alpha != scratch && alpha.Length == scratch.Length == w * h
    modifies alpha
    ensures Rows(ToInts(alpha[..]), w, h) == BoxColumns(Rows(ToInts(scratch[..]), w, h), w, spread)
  {
    ghost var img := Rows(ToInts(scratch[..]), w, h);
    ghost var goal := BoxColumns(img, w, spread);
    for x := 0 to w
      invariant scratch[..] == old(scratch[..])
      invariant forall i, y :: 0 <= i < x && 0 <= y < h ==> PixelAt(ToInts(alpha[..]), w, h, i, y) == goal[y][i]
    {
      label before:
      var cell := (y: int) => Cell(w, x, y);
      LineInside(cell, w, h, h, y => x, y => y);
      assert forall y :: 0 <= y < h ==> scratch[cell(y)] == PixelAt(ToInts(scratch[..]), w, h, x, y) == img[y][x];
      forall y | 0 <= y < h ensures BoxedAt(Column(img, w, x), spread, y, Column(goal, w, x)[y]) {
        BoxColumnsAt(img, w, h, spread, x, y);
      }
      SlideLine(scratch, alpha, cell, h, spread, Column(img, w, x), Column(goal, w, x));
      forall i, y | 0 <= i < x + 1 && 0 <= y < h
        ensures PixelAt(ToInts(alpha[..]), w, h, i, y) == goal[y][i]
      {
        if i < x {
          forall j | 0 <= j < h ensures cell(j) != Cell(w, i, y) {
            CellUnique(w, i, y, x, j);
          }
          KeptPixel(old@before(ToInts(alpha[..])), ToInts(alpha[..]), w, h, cell, h, i, y);
        } else {
          CellBound(w, h, x, y);
          assert alpha[cell(y)] == Column(goal, w, x)[y];
        }
      }
    }
    RowsAre(ToInts(alpha[..]), w, h, goal);
  }

  /** Blurs the mask's alpha in place, through a scratch buffer of the same size. */
  method Blur(alpha: array<Byte>, w: nat, h: nat, spread: nat)
    requires alpha.Length == w * h
    modifies alpha
    ensures Rows(ToInts(alpha[..]), w, h) == Shadow(Rows(ToInts(old(alpha[..])), w, h), w, spread)
    ensures Rows(ToInts(alpha[..]), w, h) == MeanImage(MeanImage(Rows(ToInts(old(alpha[..])), w, h), w, spread), w, spread)
  {
    var scratch := new Byte[alpha.Length](_ => 0);
    ghost var img := Rows(ToInts(alpha[..]), w, h);
    for pass := 0 to 2
      invariant Rows(ToInts(alpha[..]), w, h) ==
        if pass == 0 then img else if pass == 1 then Round(img, w, spread) else Shadow(img, w, spread)
    {
      HorizontalPass(alpha, scratch, w, h, spread);
      VerticalPass(scratch, alpha, w, h, spread);
    }
    ShadowIsMean(img, w, spread);
  }
}
