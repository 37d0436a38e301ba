/** The discretised exponential decay law of one half-life
    (`_simulations/distributions.py`). The exponential itself is a parameter:
    `decay(t)` stands for `exp(-ln 2 * t / half_life)`; everything else is
    exact arithmetic over the reals. */
module Distributions {
  import opened Basics

  /** The grid step: `5 * half_life / 10_000`. */
  function Dt(halfLife: real): real
  {
    5.0 * halfLife / 10000.0
  }

  /** Number of points of `numpy.arange(start, stop, step)` for a positive step. */
  function ArangeLen(start: real, stop: real, step: real): nat
    requires step > 0.0
  {
    if stop <= start then 0 else Ceil((stop - start) / step)
  }

  /** `numpy.arange(start, stop, step)` over exact reals. */
  function Arange(start: real, stop: real, step: real): (g: seq<real>)
    requires step > 0.0
    ensures |g| == ArangeLen(start, stop, step)
    ensures forall k :: 0 <= k < |g| ==> g[k] == start + k as real * step
  {
    seq(ArangeLen(start, stop, step), k => start + k as real * step)
  }

  lemma MulLess(k: real, q: real, step: real)
    requires k < q && step > 0.0
    ensures k * step < q * step
  {
  }

  lemma MulAtLeast(k: real, q: real, step: real)
    requires k >= q && step > 0.0
    ensures k * step >= q * step
  {
  }

  lemma QuotientTimes(a: real, step: real)
    requires step > 0.0
    ensures (a / step) * step == a
  {
  }

  lemma NextPoint(start: real, step: real, k: nat)
    ensures (start + (k + 1) as real * step) - (start + k as real * step) == step
  {
    assert (k + 1) as real * step == k as real * step + step;
  }

  /** Every grid point lies below `stop`. */
  lemma ArangeBelowStop(start: real, stop: real, step: real, k: nat)
    requires step > 0.0 && k < ArangeLen(start, stop, step)
    ensures start + k as real * step < stop
  {
    var q := (stop - start) / step;
    QuotientTimes(stop - start, step);
    assert k as real < q;
    MulLess(k as real, q, step);
  }

  /** The point after the last one would reach `stop`. */
  lemma ArangeMaximal(start: real, stop: real, step: real)
    requires step > 0.0
    ensures start + ArangeLen(start, stop, step) as real * step >= stop
  {
    if stop > start {
      var q := (stop - start) / step;
      QuotientTimes(stop - start, step);
      MulAtLeast(ArangeLen(start, stop, step) as real, q, step);
    }
  }

  /** The grid starts at `start`, rises by exactly `step`, stays below `stop`,
      and stops at the first point that would reach `stop`. */
  lemma ArangeShape(start: real, stop: real, step: real)
    requires step > 0.0
    ensures var g := Arange(start, stop, step);
      && (|g| > 0 ==> g[0] == start)
      && (forall k :: 0 <= k < |g| - 1 ==> g[k + 1] - g[k] == step)
      && (forall k :: 0 <= k < |g| ==> g[k] < stop)
      && start + |g| as real * step >= stop
  {
    ArangeRises(start, stop, step);
    ArangeBelow(start, stop, step);
    ArangeMaximal(start, stop, step);
  }

  lemma ArangeRises(start: real, stop: real, step: real)
    requires step > 0.0
    ensures var g := Arange(start, stop, step);
      forall k :: 0 <= k < |g| - 1 ==> g[k + 1] - g[k] == step
  {
    var g := Arange(start, stop, step);
    forall k | 0 <= k < |g| - 1 ensures g[k + 1] - g[k] == step {
      NextPoint(start, step, k);
    }
  }

  lemma ArangeBelow(start: real, stop: real, step: real)
    requires step > 0.0
    ensures var g := Arange(start, stop, step);
      forall k :: 0 <= k < |g| ==> g[k] < stop
  {
    var g := Arange(start, stop, step);
    forall k | 0 <= k < |g| ensures g[k] < stop {
      ArangeBelowStop(start, stop, step, k);
    }
  }

  /** `numpy.trapz(y, x)`: the trapezoid rule. */
  function Trapz(y: seq<real>, x: seq<real>): real
    requires |y| == |x|
  {
    if |y| < 2 then 0.0
    else (x[1] - x[0]) * (y[0] + y[1]) / 2.0 + Trapz(y[1..], x[1..])
  }

  predicate Positive(s: seq<real>) { forall k :: 0 <= k < |s| ==> s[k] > 0.0 }

  predicate StrictlyIncreasing(x: seq<real>) { forall k :: 0 <= k < |x| - 1 ==> x[k] < x[k + 1] }

  lemma {:induction false} TrapzPositive(y: seq<real>, x: seq<real>)
    requires |y| == |x| >= 2 && Positive(y) && StrictlyIncreasing(x)
    ensures Trapz(y, x) > 0.0
  {
    assert (x[1] - x[0]) * (y[0] + y[1]) > 0.0;
    if |y| > 2 {
      TrapzPositive(y[1..], x[1..]);
    }
  }

  /** `numpy.sum`, accumulated left to right. */
  function Sum(s: seq<real>): real
  {
    if s == [] then 0.0 else Sum(s[..|s| - 1]) + s[|s| - 1]
  }

  /** The exponential curve on the grid: `A * exp(-ln 2 * t / half_life)`. */
  function Exponential(grid: seq<real>, amplitude: real, decay: real -> real): (e: seq<real>)
    ensures |e| == |grid|
  {
    seq(|grid|, k requires 0 <= k < |grid| => amplitude * decay(grid[k]))
  }

  /** The values a float division by zero leaves: `x / 0.0` is `inf` or
      `-inf` by the sign of `x`, and NaN for `x == 0`. */
  datatype Special = PosInf | NegInf | NaN

  function OverZero(x: real): (v: Special)
    ensures v == NaN <==> x == 0.0
    ensures v == PosInf <==> x > 0.0
  {
    if x > 0.0 then PosInf else if x < 0.0 then NegInf else NaN
  }

  /** A numpy float array produced by a division: all numbers, or, when the
      denominator was zero, one special value per entry (numpy raises nothing). */
  datatype Floats = Numbers(values: seq<real>) | Specials(entries: seq<Special>)

  function Length(a: Floats): nat
  {
    match a
    case Numbers(v) => |v|
    case Specials(e) => |e|
  }

  /** `calculate_pdf`: the curve divided by its trapezoid integral. A zero
      integral over a non-empty curve (one grid point, or a zero amplitude)
      leaves `inf`, `-inf` or NaN in every entry; an empty curve stays empty. */
  function CalculatePdf(exp: seq<real>, grid: seq<real>): (pdf: Floats)
    requires |exp| == |grid|
    ensures Length(pdf) == |exp|
    ensures pdf.Specials? <==> |exp| > 0 && Trapz(exp, grid) == 0.0
    ensures pdf.Numbers? ==> forall k :: 0 <= k < |exp| ==> pdf.values[k] * Trapz(exp, grid) == exp[k]
    ensures pdf.Specials? ==> forall k :: 0 <= k < |exp| ==>
      (pdf.entries[k] == NaN <==> exp[k] == 0.0) && (pdf.entries[k] == PosInf <==> exp[k] > 0.0)
  {
    var area := Trapz(exp, grid);
    if |exp| > 0 && area == 0.0 then Specials(seq(|exp|, k requires 0 <= k < |exp| => OverZero(exp[k])))
    else Numbers(seq(|exp|, k requires 0 <= k < |exp| => exp[k] / area))
  }

  /** A positive curve on a rising grid of two or more points has a positive
      integral, so its pdf is made of numbers, all positive. */
  lemma PdfPositive(exp: seq<real>, grid: seq<real>)
    requires |exp| == |grid| >= 2 && Positive(exp) && StrictlyIncreasing(grid)
    ensures CalculatePdf(exp, grid).Numbers? && Positive(CalculatePdf(exp, grid).values)
  {
    TrapzPositive(exp, grid);
  }

  /** `calculate_cdf`: running sums of the pdf over its total. A pdf of special
      values has special running sums and total, and their ratios are all NaN;
      a pdf of numbers with a zero total divides every running sum by zero. */
  function CalculateCdf(pdf: Floats): (cdf: Floats)
    ensures Length(cdf) == Length(pdf)
    ensures pdf.Specials? ==> cdf.Specials? && forall k :: 0 <= k < |pdf.entries| ==> cdf.entries[k] == NaN
    ensures pdf.Numbers? ==> (cdf.Specials? <==> |pdf.values| > 0 && Sum(pdf.values) == 0.0)
    ensures pdf.Numbers? && cdf.Numbers? ==>
      forall k :: 0 <= k < |pdf.values| ==> cdf.values[k] * Sum(pdf.values) == RunningSum(pdf.values, k)
  {
    match pdf
    case Specials(e) => Specials(seq(|e|, k => NaN))
    case Numbers(p) =>
      var total := Sum(p);
      if |p| > 0 && total == 0.0 then
        Specials(seq(|p|, k requires 0 <= k < |p| => OverZero(RunningSum(p, k))))
      else
        Numbers(seq(|p|, k requires 0 <= k < |p| => RunningSum(p, k) / total))
  }

  /** Entry k of `np.cumsum(pdf)`. */
  function RunningSum(pdf: seq<real>, k: nat): real
    requires k < |pdf|
  {
    Sum(pdf[..k + 1])
  }

  lemma {:induction false} SumPositive(s: seq<real>)
    requires Positive(s) && |s| > 0
    ensures Sum(s) > 0.0
  {
    if |s| > 1 {
      SumPositive(s[..|s| - 1]);
    }
  }

  /** Longer prefixes of a positive sequence have larger sums. */
  lemma {:induction false} PrefixSumMonotone(s: seq<real>, i: nat, j: nat)
    requires Positive(s) && 0 < i <= j <= |s|
    ensures 0.0 < Sum(s[..i]) <= Sum(s[..j])
    decreases j
  {
    if j > i {
      assert s[..j][..j - 1] == s[..j - 1];
      PrefixSumMonotone(s, i, j - 1);
    } else {
      SumPositive(s[..i]);
    }
  }

  /** Entry k of the cdf is the sum of the first k + 1 pdf values over the total. */
  lemma CdfAt(pdf: seq<real>, k: nat)
    requires CalculateCdf(Numbers(pdf)).Numbers? && k < |pdf|
    ensures CalculateCdf(Numbers(pdf)).values[k] == Sum(pdf[..k + 1]) / Sum(pdf)
  {
    assert CalculateCdf(Numbers(pdf)).values[k] == RunningSum(pdf, k) / Sum(pdf);
  }

  /** For a positive pdf the cdf is a distribution function: non-decreasing,
      every entry in (0, 1], and the last entry exactly 1. */
  lemma CdfIsDistribution(pdf: seq<real>)
    requires Positive(pdf) && |pdf| > 0
    ensures CalculateCdf(Numbers(pdf)).Numbers?
    ensures var cdf := CalculateCdf(Numbers(pdf)).values;
      && (forall i, j :: 0 <= i <= j < |cdf| ==> cdf[i] <= cdf[j])
      && (forall k :: 0 <= k < |cdf| ==> 0.0 < cdf[k] <= 1.0)
      && cdf[|cdf| - 1] == 1.0
  {
    SumPositive(pdf);
    var cdf := CalculateCdf(Numbers(pdf)).values;
    forall i, j | 0 <= i <= j < |cdf| ensures cdf[i] <= cdf[j] {
      CdfEntriesOrdered(pdf, i, j);
    }
    forall k | 0 <= k < |cdf| ensures 0.0 < cdf[k] <= 1.0 {
      CdfEntriesOrdered(pdf, k, |pdf| - 1);
    }
    CdfAt(pdf, |pdf| - 1);
    assert pdf[..|pdf|] == pdf;
  }

  lemma CdfEntriesOrdered(pdf: seq<real>, i: nat, j: nat)
    requires Positive(pdf) && i <= j < |pdf|
    ensures CalculateCdf(Numbers(pdf)).Numbers?
    ensures 0.0 < CalculateCdf(Numbers(pdf)).values[i] <= CalculateCdf(Numbers(pdf)).values[j] <= 1.0
  {
    SumPositive(pdf);
    var a, b := Sum(pdf[..i + 1]), Sum(pdf[..j + 1]);
    PrefixSumMonotone(pdf, i + 1, j + 1);
    PrefixSumMonotone(pdf, j + 1, |pdf|);
    assert pdf[..|pdf|] == pdf;
    RatioOrdered(a, b, Sum(pdf));
    CdfAt(pdf, i);
    CdfAt(pdf, j);
  }

  lemma RatioOrdered(a: real, b: real, total: real)
    requires 0.0 < a <= b <= total
    ensures 0.0 < a / total <= b / total <= 1.0
  {
    DivMonotone(a, b, total);
    DivMonotone(b, total, total);
  }

  lemma DivMonotone(a: real, b: real, c: real)
    requires 0.0 < a <= b && c > 0.0
    ensures 0.0 < a / c <= b / c
  {
  }

  /** A built distribution (the attributes of `Distribution`). */
  datatype Distribution = Distribution(
    halfLife: real, dt: real, grid: seq<real>,
    exponential: seq<real>, pdf: Floats, cdf: Floats)

  /** `Distribution(half_life, time_range, time_start=0, A=1)`: numpy raises
      nothing here, whatever the grid. */
  function NewDistribution(halfLife: real, timeRange: real, decay: real -> real,
                           timeStart: real := 0.0, amplitude: real := 1.0): (d: Distribution)
    requires halfLife > 0.0
    ensures d.halfLife == halfLife && d.dt == Dt(halfLife)
    ensures d.grid == Arange(timeStart, timeRange, Dt(halfLife))
    ensures |d.exponential| == Length(d.pdf) == Length(d.cdf) == |d.grid|
  {
    var dt := Dt(halfLife);
    var grid := Arange(timeStart, timeRange, dt);
    var exp := Exponential(grid, amplitude, decay);
    var pdf := CalculatePdf(exp, grid);
    Distribution(halfLife, dt, grid, exp, pdf, CalculateCdf(pdf))
  }

  /** With a positive amplitude and decay law and at least two grid points, the
      pdf is made of positive numbers and the cdf is a distribution function on
      the grid. */
  lemma DistributionWellFormed(halfLife: real, timeRange: real, timeStart: real, amplitude: real,
                               decay: real -> real)
    requires halfLife > 0.0 && amplitude > 0.0
    requires forall t :: decay(t) > 0.0
    requires ArangeLen(timeStart, timeRange, Dt(halfLife)) >= 2
    ensures var d := NewDistribution(halfLife, timeRange, decay, timeStart, amplitude);
      && d.pdf.Numbers? && Positive(d.pdf.values) && d.cdf.Numbers?
      && var cdf := d.cdf.values;
      && (forall i, j :: 0 <= i <= j < |cdf| ==> cdf[i] <= cdf[j])
      && (forall k :: 0 <= k < |cdf| ==> 0.0 < cdf[k] <= 1.0)
      && cdf[|cdf| - 1] == 1.0
      && d.grid[1] - d.grid[0] == d.dt
  {
    var dt := Dt(halfLife);
    var grid := Arange(timeStart, timeRange, dt);
    var exp := Exponential(grid, amplitude, decay);
    assert Positive(exp);
    ArangeShape(timeStart, timeRange, dt);
    assert StrictlyIncreasing(grid);
    PdfPositive(exp, grid);
    var pdf := CalculatePdf(exp, grid).values;
    CdfIsDistribution(pdf);
  }

  /** A window holding a single grid point has a zero integral: the pdf is
      `[inf]` and the cdf `[nan]`, and still nothing is raised. */
  lemma OnePointDistribution(halfLife: real, timeRange: real, timeStart: real, amplitude: real,
                             decay: real -> real)
    requires halfLife > 0.0 && amplitude > 0.0
    requires forall t :: decay(t) > 0.0
    requires ArangeLen(timeStart, timeRange, Dt(halfLife)) == 1
    ensures var d := NewDistribution(halfLife, timeRange, decay, timeStart, amplitude);
      d.pdf == Specials([PosInf]) && d.cdf == Specials([NaN])
  {
    var grid := Arange(timeStart, timeRange, Dt(halfLife));
    var exp := Exponential(grid, amplitude, decay);
    assert exp[0] > 0.0;
    assert CalculatePdf(exp, grid).entries == [PosInf];
  }

  /** In the driver the window is `factor * half_life`, so the grid has
      `ceil(2000 * factor)` points whatever the half-life: 10 000 for factor 5. */
  lemma DriverGridLength(halfLife: real, factor: real)
    requires halfLife > 0.0 && factor > 0.0
    ensures ArangeLen(0.0, factor * halfLife, Dt(halfLife)) == Ceil(2000.0 * factor)
  {
    assert (factor * halfLife - 0.0) / Dt(halfLife) == 2000.0 * factor;
  }
}
