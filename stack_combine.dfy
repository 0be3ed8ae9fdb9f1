/**
 * The per-pixel combination rules of the stacker (stack_images and
 * sigma_clip_stack): numpy works in float64 over the stack of aligned frames,
 * here modelled with `real`, and the result is clipped to 0..255 and truncated
 * to 8 bits.
 */
module Combine {
  import opened Common
  import opened Sorting

  /** A decoded or aligned frame: rows of 8-bit samples, the three colour
      channels of a pixel interleaved within its row, all rows of one length. */
  type Frame = f: seq<seq<Byte>> | Rectangular(f)

  /** The combination rules selected by the `method` parameter. */
  datatype Method = Average | Median | Maximum | SigmaClip

  /** The dispatch on the method name; every other name selects the average. */
  function ParseMethod(name: string): (m: Method)
    ensures m == Median <==> name == "median"
    ensures m == Maximum <==> name == "maximum"
    ensures m == SigmaClip <==> name == "sigma_clip"
    ensures m == Average <==> name != "median" && name != "maximum" && name != "sigma_clip"
  {
    if name == "average" then Average
    else if name == "median" then Median
    else if name == "maximum" then Maximum
    else if name == "sigma_clip" then SigmaClip
    else Average
  }

  /** All frames of the stack have the shape of the first. */
  predicate Uniform(stack: seq<Frame>) {
    forall k :: 0 <= k < |stack| ==> SameShape(stack[k], stack[0])
  }

  /** The samples at row i, position j, across the stack (numpy's axis 0). */
  function Column(stack: seq<Frame>, i: nat, j: nat): (col: seq<int>)
    requires forall k :: 0 <= k < |stack| ==> i < |stack[k]| && j < |stack[k][i]|
    ensures |col| == |stack|
    ensures forall k :: 0 <= k < |stack| ==> col[k] == stack[k][i][j]
  {
    seq(|stack|, k requires 0 <= k < |stack| => stack[k][i][j] as int)
  }

  // ---------------------------------------------------------------- mean

  function Mean(col: seq<int>): real
    requires |col| > 0
  {
    Sum(col) as real / |col| as real
  }

  lemma {:induction false} SumBounds(col: seq<int>, lo: int, hi: int)
    requires forall k :: 0 <= k < |col| ==> lo <= col[k] <= hi
    ensures |col| * lo <= Sum(col) <= |col| * hi
  {
    if col != [] {
      var m := |col| - 1;
      SumBounds(col[..m], lo, hi);
      MulStep(m, lo);
      MulStep(m, hi);
    }
  }

  lemma MulStep(n: int, x: int)
    ensures (n + 1) * x == n * x + x
  {
  }

  /** The mean lies between every lower and every upper bound of the samples. */
  lemma MeanBetween(col: seq<int>, lo: int, hi: int)
    requires |col| > 0
    requires forall k :: 0 <= k < |col| ==> lo <= col[k] <= hi
    ensures lo as real <= Mean(col) <= hi as real
  {
    SumBounds(col, lo, hi);
    var n := |col|;
    ProductAsReal(n, lo);
    ProductAsReal(n, hi);
    DivBetween(Sum(col) as real, n as real, lo as real, hi as real);
  }

  lemma ProductAsReal(a: int, b: int)
    ensures (a * b) as real == a as real * b as real
  {
  }

  lemma DivBetween(s: real, n: real, lo: real, hi: real)
    requires n > 0.0 && n * lo <= s <= n * hi
    ensures lo <= s / n <= hi
  {
    DivAtLeast(s, n, lo);
    DivAtMost(s, n, hi);
  }

  lemma DivAtLeast(s: real, n: real, lo: real)
    requires n > 0.0 && n * lo <= s
    ensures lo <= s / n
  {
  }

  lemma DivAtMost(s: real, n: real, hi: real)
    requires n > 0.0 && s <= n * hi
    ensures s / n <= hi
  {
  }

  /** The mean of a constant column is that constant. */
  lemma MeanOfConstant(col: seq<int>, v: int)
    requires |col| > 0
    requires forall k :: 0 <= k < |col| ==> col[k] == v
    ensures Mean(col) == v as real
  {
    MeanBetween(col, v, v);
  }

  // -------------------------------------------------------------- median

  function IntLe(a: int, b: int): bool { a <= b }

  lemma IntLeIsTotalOrder()
    ensures TotalOrder(IntLe)
  {
  }

  /** numpy's median: the middle sample of the sorted column, or the mean of
      the two middle samples when the count is even. */
  function MedianOf(col: seq<int>): real
    requires |col| > 0
  {
    var s := Sort(col, IntLe);
    var n := |s|;
    if n % 2 == 1 then s[n / 2] as real else (s[n / 2 - 1] + s[n / 2]) as real / 2.0
  }

  /** Every sample of a sorted permutation of col lies within bounds that
      hold for every sample of col. */
  lemma SortedSampleBetween(col: seq<int>, i: nat, lo: int, hi: int)
    requires i < |col|
    requires forall k :: 0 <= k < |col| ==> lo <= col[k] <= hi
    ensures i < |Sort(col, IntLe)| && lo <= Sort(col, IntLe)[i] <= hi
  {
    var s := Sort(col, IntLe);
    assert s[i] in multiset(s);
    assert s[i] in multiset(col);
  }

  /** The median lies between every lower and every upper bound of the samples. */
  lemma MedianBetween(col: seq<int>, lo: int, hi: int)
    requires |col| > 0
    requires forall k :: 0 <= k < |col| ==> lo <= col[k] <= hi
    ensures lo as real <= MedianOf(col) <= hi as real
  {
    var n := |col|;
    SortedSampleBetween(col, n / 2, lo, hi);
    if n % 2 == 0 {
      SortedSampleBetween(col, n / 2 - 1, lo, hi);
      var s := Sort(col, IntLe);
      MidpointBetween(s[n / 2 - 1], s[n / 2], lo, hi);
    }
  }

  lemma MidpointBetween(a: int, b: int, lo: int, hi: int)
    requires lo <= a <= hi && lo <= b <= hi
    ensures lo as real <= (a + b) as real / 2.0 <= hi as real
  {
  }

  lemma {:induction false} CountAllEqual(s: seq<int>, v: int)
    requires forall k :: 0 <= k < |s| ==> s[k] == v
    ensures Count(s, v) == |s|
  {
    if s != [] {
      CountAllEqual(s[..|s| - 1], v);
    }
  }

  /** At most one sample differs from v. */
  ghost predicate AtMostOneOutlier(col: seq<int>, v: int) {
    forall k, l :: 0 <= k < l < |col| ==> col[k] == v || col[l] == v
  }

  lemma {:induction false} CountAllButOne(s: seq<int>, v: int)
    requires AtMostOneOutlier(s, v)
    ensures Count(s, v) + 1 >= |s|
  {
    if s != [] {
      var n := |s| - 1;
      if s[n] == v {
        CountAllButOne(s[..n], v);
      } else {
        CountAllEqual(s[..n], v);
      }
    }
  }

  /** In a sorted column in which v occurs at least |s| - 1 times, every
      position but the two ends holds v. */
  lemma InnerSamplesEqual(s: seq<int>, v: int, i: nat)
    requires SortedBy(s, IntLe)
    requires Count(s, v) + 1 >= |s|
    requires 0 < i < |s| - 1
    ensures s[i] == v
  {
    if s[i] < v {
      assert s[0] <= s[i];
      CountWithTwoOthers(s, v, 0, i);
    } else if s[i] > v {
      assert s[i] <= s[|s| - 1];
      CountWithTwoOthers(s, v, i, |s| - 1);
    }
  }

  /** With at least three frames, a single outlying sample cannot move the
      median: it is the value every other frame holds. */
  lemma MedianSuppressesOneOutlier(col: seq<int>, v: int)
    requires |col| >= 3
    requires AtMostOneOutlier(col, v)
    ensures MedianOf(col) == v as real
  {
    var s := Sort(col, IntLe);
    IntLeIsTotalOrder();
    SortSorted(col, IntLe);
    CountAllButOne(col, v);
    CountIsMultiplicity(col, v);
    CountIsMultiplicity(s, v);
    var n := |s|;
    InnerSamplesEqual(s, v, n / 2);
    if n % 2 == 0 {
      InnerSamplesEqual(s, v, n / 2 - 1);
    }
  }

  // ------------------------------------------------------------- maximum

  /** np.max over the stack axis. */
  function MaxOf(col: seq<int>): (m: int)
    requires |col| > 0
    ensures exists k :: 0 <= k < |col| && col[k] == m
    ensures forall k :: 0 <= k < |col| ==> col[k] <= m
  {
    if |col| == 1 then col[0]
    else
      var m := MaxOf(col[..|col| - 1]);
      if col[|col| - 1] > m then col[|col| - 1] else m
  }

  // ---------------------------------------------------------- sigma clip

  /** The samples inside the inclusive band [lo, hi], in stack order. */
  function Kept(col: seq<int>, lo: real, hi: real): (r: seq<int>)
    ensures |r| <= |col|
  {
    if col == [] then []
    else
      var x := col[|col| - 1];
      Kept(col[..|col| - 1], lo, hi) + (if lo <= x as real <= hi then [x] else [])
  }

  /** Every sample lies inside the inclusive band [lo, hi]. */
  ghost predicate Within(col: seq<int>, lo: real, hi: real) {
    forall k :: 0 <= k < |col| ==> lo <= col[k] as real <= hi
  }

  lemma {:induction false} KeptAll(col: seq<int>, lo: real, hi: real)
    requires Within(col, lo, hi)
    ensures Kept(col, lo, hi) == col
  {
    if col != [] {
      KeptAll(col[..|col| - 1], lo, hi);
    }
  }

  lemma {:induction false} KeptNone(col: seq<int>, lo: real, hi: real)
    ensures Kept(col, lo, hi) == [] <==> forall k :: 0 <= k < |col| ==> !(lo <= col[k] as real <= hi)
  {
    if col != [] {
      KeptNone(col[..|col| - 1], lo, hi);
    }
  }

  /** sigma_clip_stack at one position: the mean of the samples inside
      [mean - sigmaLow * std, mean + sigmaHigh * std]; with none inside, the
      divisor is forced to 1 over a masked sum of 0. */
  function SigmaClipPixel(col: seq<int>, sigmaLow: real, sigmaHigh: real, std: real): real
    requires |col| > 0
  {
    var m := Mean(col);
    var kept := Kept(col, m - sigmaLow * std, m + sigmaHigh * std);
    Sum(kept) as real / (if |kept| == 0 then 1 else |kept|) as real
  }

  /** When no sample lies outside the band, sigma clipping is the plain mean
      (in particular for sigma bounds large enough to contain every sample). */
  lemma SigmaClipWithoutRejectionIsMean(col: seq<int>, sigmaLow: real, sigmaHigh: real, std: real)
    requires |col| > 0
    requires Within(col, Mean(col) - sigmaLow * std, Mean(col) + sigmaHigh * std)
    ensures SigmaClipPixel(col, sigmaLow, sigmaHigh, std) == Mean(col)
  {
    KeptAll(col, Mean(col) - sigmaLow * std, Mean(col) + sigmaHigh * std);
  }

  /** When every sample is rejected the pixel becomes 0. */
  lemma SigmaClipAllRejectedIsZero(col: seq<int>, sigmaLow: real, sigmaHigh: real, std: real)
    requires |col| > 0
    requires forall k :: 0 <= k < |col| ==>
      !(Mean(col) - sigmaLow * std <= col[k] as real <= Mean(col) + sigmaHigh * std)
    ensures SigmaClipPixel(col, sigmaLow, sigmaHigh, std) == 0.0
  {
    KeptNone(col, Mean(col) - sigmaLow * std, Mean(col) + sigmaHigh * std);
  }

  /** A constant column is kept whole by any non-negative band. */
  lemma SigmaClipOfConstant(col: seq<int>, v: int, sigmaLow: real, sigmaHigh: real, std: real)
    requires |col| > 0
    requires forall k :: 0 <= k < |col| ==> col[k] == v
    requires sigmaLow >= 0.0 && sigmaHigh >= 0.0 && std >= 0.0
    ensures SigmaClipPixel(col, sigmaLow, sigmaHigh, std) == v as real
  {
    MeanOfConstant(col, v);
    assert sigmaLow * std >= 0.0 && sigmaHigh * std >= 0.0;
    SigmaClipWithoutRejectionIsMean(col, sigmaLow, sigmaHigh, std);
  }

  /** Sum of squared deviations from m (numpy's population variance times n). */
  function SquaredDeviations(col: seq<int>, m: real): real {
    if col == [] then 0.0
    else
      var d := col[|col| - 1] as real - m;
      SquaredDeviations(col[..|col| - 1], m) + d * d
  }

  /** s is np.std of the column: non-negative, and its square is the
      population variance. */
  ghost predicate IsStd(col: seq<int>, s: real)
    requires |col| > 0
  {
    s >= 0.0 && s * s * |col| as real == SquaredDeviations(col, Mean(col))
  }

  lemma {:induction false} SquaredDeviationsAbove(col: seq<int>, m: real, t: real)
    requires |col| > 0
    requires forall k :: 0 <= k < |col| ==> (col[k] as real - m) * (col[k] as real - m) > t
    ensures SquaredDeviations(col, m) > t * |col| as real
  {
    if |col| > 1 {
      SquaredDeviationsAbove(col[..|col| - 1], m, t);
    }
  }

  /** Multiplying by a positive factor keeps a strict order. */
  lemma MulStrict(a: real, b: real, n: real)
    requires a < b && n > 0.0
    ensures a * n < b * n
  {
  }

  lemma MulMono(a: real, b: real, n: real)
    requires a <= b && n >= 0.0
    ensures a * n <= b * n
  {
    if a < b && n > 0.0 {
      MulStrict(a, b, n);
    }
  }

  lemma SquareAbove(d: real, s: real)
    requires s >= 0.0 && (d > s || d < -s)
    ensures d * d > s * s
  {
    if d > s {
      SquareAboveOfPositive(d, s);
    } else {
      SquareAboveOfPositive(-d, s);
      assert (-d) * (-d) == d * d;
    }
  }

  lemma SquareAboveOfPositive(e: real, s: real)
    requires 0.0 <= s < e
    ensures e * e > s * s
  {
    MulStrict(0.0, e - s, e + s);
    assert e * e - s * s == (e - s) * (e + s);
  }

  /** A sample outside the band of width at least one standard deviation on
      each side deviates from the mean by more than that deviation. */
  lemma RejectedSampleDeviates(x: real, m: real, sigmaLow: real, sigmaHigh: real, std: real)
    requires std >= 0.0 && sigmaLow >= 1.0 && sigmaHigh >= 1.0
    requires !(m - sigmaLow * std <= x <= m + sigmaHigh * std)
    ensures (x - m) * (x - m) > std * std
  {
    MulMono(1.0, sigmaLow, std);
    MulMono(1.0, sigmaHigh, std);
    SquareAbove(x - m, std);
  }

  /** When every sample lies outside the band, the squared deviations exceed
      n times the squared standard deviation. */
  lemma AllRejectedDeviate(col: seq<int>, m: real, sigmaLow: real, sigmaHigh: real, std: real)
    requires |col| > 0 && std >= 0.0 && sigmaLow >= 1.0 && sigmaHigh >= 1.0
    requires forall k :: 0 <= k < |col| ==> !(m - sigmaLow * std <= col[k] as real <= m + sigmaHigh * std)
    ensures SquaredDeviations(col, m) > std * std * |col| as real
  {
    forall k | 0 <= k < |col|
      ensures (col[k] as real - m) * (col[k] as real - m) > std * std
    {
      RejectedSampleDeviates(col[k] as real, m, sigmaLow, sigmaHigh, std);
    }
    SquaredDeviationsAbove(col, m, std * std);
  }

  /** With the true standard deviation and both sigma bounds at least 1, some
      sample is always kept, so the forced divisor of 1 never applies. */
  lemma SigmaClipKeepsSomeSample(col: seq<int>, sigmaLow: real, sigmaHigh: real, std: real)
    requires |col| > 0 && IsStd(col, std)
    requires sigmaLow >= 1.0 && sigmaHigh >= 1.0
    ensures Kept(col, Mean(col) - sigmaLow * std, Mean(col) + sigmaHigh * std) != []
  {
    var m := Mean(col);
    var lo, hi := m - sigmaLow * std, m + sigmaHigh * std;
    if Kept(col, lo, hi) == [] {
      KeptNone(col, lo, hi);
      AllRejectedDeviate(col, m, sigmaLow, sigmaHigh, std);
      assert false;
    }
  }

  /** With sigma bounds of 0.5 the two samples 0 and 10 (mean 5, std 5) are
      both rejected and the pixel becomes 0, not the mean 5. */
  lemma SigmaClipCanBlankAPixel()
    ensures IsStd([0, 10], 5.0)
    ensures SigmaClipPixel([0, 10], 0.5, 0.5, 5.0) == 0.0
  {
    var col := [0, 10];
    assert col[..1] == [0];
    assert Sum(col) == 10;
    assert Mean(col) == 5.0;
    assert SquaredDeviations(col, 5.0) == 50.0;
    SigmaClipAllRejectedIsZero(col, 0.5, 0.5, 5.0);
  }

  // ---------------------------------------------------------- the stack

  /** The value one rule computes from one column before the 8-bit clip. */
  function Combined(m: Method, col: seq<int>, sigmaLow: real, sigmaHigh: real,
                    std: seq<int> -> real): real
    requires |col| > 0
  {
    match m
    case Average => Mean(col)
    case Median => MedianOf(col)
    case Maximum => MaxOf(col) as real
    case SigmaClip => SigmaClipPixel(col, sigmaLow, sigmaHigh, std(col))
  }

  /** stack_images: None for an empty stack, and also when the frames do not
      share one shape (numpy cannot build the stacked array and the error is
      caught); otherwise the rule applied at every position, clipped to
      0..255 and truncated, with the shape of the first frame. */
  function StackImages(stack: seq<Frame>, rule: string, sigmaLow: real, sigmaHigh: real,
                       std: seq<int> -> real): (r: Option<Frame>)
    ensures r.None? <==> |stack| == 0 || !Uniform(stack)
    ensures r.Some? ==> SameShape(r.value, stack[0])
  {
    if |stack| == 0 || !Uniform(stack) then None
    else
      var f0 := stack[0];
      var m := ParseMethod(rule);
      var out: Frame := seq(|f0|, i requires 0 <= i < |f0| =>
                   seq(|f0[i]|, j requires 0 <= j < |f0[i]| =>
                     ClipToByte(Combined(m, Column(stack, i, j), sigmaLow, sigmaHigh, std))));
      assert forall i :: 0 <= i < |out| ==> |out[i]| == |f0[i]|;
      Some(out)
  }

  /** The stacked sample at (i, j), by unfolding StackImages. */
  lemma StackedSample(stack: seq<Frame>, rule: string, sigmaLow: real, sigmaHigh: real,
                      std: seq<int> -> real, i: nat, j: nat)
    requires |stack| > 0 && Uniform(stack)
    requires i < |stack[0]| && j < |stack[0][i]|
    ensures forall k :: 0 <= k < |stack| ==> i < |stack[k]| && j < |stack[k][i]|
    ensures StackImages(stack, rule, sigmaLow, sigmaHigh, std).Some?
    ensures StackImages(stack, rule, sigmaLow, sigmaHigh, std).value[i][j]
         == ClipToByte(Combined(ParseMethod(rule), Column(stack, i, j), sigmaLow, sigmaHigh, std))
  {
  }

  /** A method name outside the four known rules gives the average stack. */
  lemma UnknownMethodIsAverage(stack: seq<Frame>, rule: string, sigmaLow: real, sigmaHigh: real,
                               std: seq<int> -> real)
    requires rule != "median" && rule != "maximum" && rule != "sigma_clip"
    ensures StackImages(stack, rule, sigmaLow, sigmaHigh, std)
         == StackImages(stack, "average", sigmaLow, sigmaHigh, std)
  {
    assert ParseMethod(rule) == ParseMethod("average");
  }

  /** Every rule maps a constant column to its value. */
  lemma CombinedOfConstant(m: Method, col: seq<int>, v: int, sigmaLow: real, sigmaHigh: real,
                           std: seq<int> -> real)
    requires |col| > 0
    requires forall k :: 0 <= k < |col| ==> col[k] == v
    requires sigmaLow >= 0.0 && sigmaHigh >= 0.0 && std(col) >= 0.0
    ensures Combined(m, col, sigmaLow, sigmaHigh, std) == v as real
  {
    match m
    case Average =>
      MeanOfConstant(col, v);
    case Median =>
      MedianBetween(col, v, v);
    case Maximum =>
    case SigmaClip =>
      SigmaClipOfConstant(col, v, sigmaLow, sigmaHigh, std(col));
  }

  /** Stacking copies of one frame reproduces that frame, whatever the rule
      (for sigma clipping: with non-negative bounds and standard deviation). */
  lemma StackOfCopiesIsTheFrame(stack: seq<Frame>, f: Frame, rule: string,
                                sigmaLow: real, sigmaHigh: real, std: seq<int> -> real)
    requires |stack| > 0
    requires forall k :: 0 <= k < |stack| ==> stack[k] == f
    requires sigmaLow >= 0.0 && sigmaHigh >= 0.0
    requires forall c :: std(c) >= 0.0
    ensures StackImages(stack, rule, sigmaLow, sigmaHigh, std) == Some(f)
  {
    assert Uniform(stack);
    var r := StackImages(stack, rule, sigmaLow, sigmaHigh, std);
    var out := r.value;
    forall i | 0 <= i < |f|
      ensures out[i] == f[i]
    {
      forall j | 0 <= j < |f[i]|
        ensures out[i][j] == f[i][j]
      {
        StackedSample(stack, rule, sigmaLow, sigmaHigh, std, i, j);
        var col := Column(stack, i, j);
        CombinedOfConstant(ParseMethod(rule), col, f[i][j], sigmaLow, sigmaHigh, std);
        ClipToByteOfByte(f[i][j]);
      }
    }
    assert out == f;
  }

  /** The maximum stack is at least every frame's sample at every position. */
  lemma MaximumStackDominates(stack: seq<Frame>, sigmaLow: real, sigmaHigh: real,
                              std: seq<int> -> real, i: nat, j: nat, k: nat)
    requires |stack| > 0 && Uniform(stack)
    requires i < |stack[0]| && j < |stack[0][i]| && k < |stack|
    ensures StackImages(stack, "maximum", sigmaLow, sigmaHigh, std).Some?
    ensures stack[k][i][j] <= StackImages(stack, "maximum", sigmaLow, sigmaHigh, std).value[i][j]
  {
    StackedSample(stack, "maximum", sigmaLow, sigmaHigh, std, i, j);
    var col := Column(stack, i, j);
    var m := MaxOf(col);
    assert col[k] <= m;
    var x: Byte :| col[k] == x;
    var y: Byte :| m == y;
    ClipToByteOfByte(y);
  }

  /** The average and median stacks lie between the darkest and the brightest
      frame at every position. */
  lemma AverageAndMedianStayInRange(stack: seq<Frame>, rule: string, sigmaLow: real,
                                    sigmaHigh: real, std: seq<int> -> real,
                                    i: nat, j: nat, lo: Byte, hi: Byte)
    requires rule == "average" || rule == "median"
    requires |stack| > 0 && Uniform(stack)
    requires i < |stack[0]| && j < |stack[0][i]|
    requires forall k :: 0 <= k < |stack| ==> lo <= stack[k][i][j] <= hi
    ensures StackImages(stack, rule, sigmaLow, sigmaHigh, std).Some?
    ensures lo <= StackImages(stack, rule, sigmaLow, sigmaHigh, std).value[i][j] <= hi
  {
    StackedSample(stack, rule, sigmaLow, sigmaHigh, std, i, j);
    var col := Column(stack, i, j);
    if rule == "average" {
      MeanBetween(col, lo, hi);
    } else {
      MedianBetween(col, lo, hi);
    }
    ClipToByteOfByte(lo);
    ClipToByteOfByte(hi);
    ClipToByteMonotone(lo as real, Combined(ParseMethod(rule), col, sigmaLow, sigmaHigh, std));
    ClipToByteMonotone(Combined(ParseMethod(rule), col, sigmaLow, sigmaHigh, std), hi as real);
  }

  /** With three or more frames, the median stack ignores a sample that only
      one frame disagrees on. */
  lemma MedianStackSuppressesOneOutlier(stack: seq<Frame>, sigmaLow: real, sigmaHigh: real,
                                        std: seq<int> -> real, i: nat, j: nat, v: Byte)
    requires |stack| >= 3 && Uniform(stack)
    requires i < |stack[0]| && j < |stack[0][i]|
    requires forall k, l :: 0 <= k < l < |stack| ==> stack[k][i][j] == v || stack[l][i][j] == v
    ensures StackImages(stack, "median", sigmaLow, sigmaHigh, std).Some?
    ensures StackImages(stack, "median", sigmaLow, sigmaHigh, std).value[i][j] == v
  {
    StackedSample(stack, "median", sigmaLow, sigmaHigh, std, i, j);
    MedianSuppressesOneOutlier(Column(stack, i, j), v);
    ClipToByteOfByte(v);
  }

  /** Where no sample falls outside the sigma band, the sigma-clip stack
      equals the average stack. */
  lemma SigmaClipStackMatchesAverage(stack: seq<Frame>, sigmaLow: real, sigmaHigh: real,
                                     std: seq<int> -> real, i: nat, j: nat)
    requires |stack| > 0 && Uniform(stack)
    requires i < |stack[0]| && j < |stack[0][i]|
    requires forall k :: 0 <= k < |stack| ==> i < |stack[k]| && j < |stack[k][i]|
    requires var col := Column(stack, i, j);
      Within(col, Mean(col) - sigmaLow * std(col), Mean(col) + sigmaHigh * std(col))
    ensures StackImages(stack, "sigma_clip", sigmaLow, sigmaHigh, std).Some?
    ensures StackImages(stack, "sigma_clip", sigmaLow, sigmaHigh, std).value[i][j]
         == StackImages(stack, "average", sigmaLow, sigmaHigh, std).value[i][j]
  {
    var col := Column(stack, i, j);
    SigmaClipWithoutRejectionIsMean(col, sigmaLow, sigmaHigh, std(col));
    StackedSample(stack, "sigma_clip", sigmaLow, sigmaHigh, std, i, j);
    StackedSample(stack, "average", sigmaLow, sigmaHigh, std, i, j);
  }
}
