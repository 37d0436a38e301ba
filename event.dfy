/** Inverse-cdf sampling of one decay time (`_simulations/event.py`).
    The two `random.random()` draws are the parameters `r` and `u`. */
module Events {
  import opened Basics
  import opened Bisect
  import opened Distributions

  /** The keys `bisect_left` sees in an array of special values: it only asks
      `a[mid] < r`, which holds for `-inf` alone (`inf < r` and `nan < r` are
      false). */
  function Comparable(e: seq<Special>, r: real): (keys: seq<real>)
    ensures |keys| == |e| && forall k :: 0 <= k < |e| ==> (keys[k] < r <==> e[k] == NegInf)
  {
    seq(|e|, k requires 0 <= k < |e| => if e[k] == NegInf then r - 1.0 else r)
  }

  /** `bisect.bisect_left(cdf, r)` on either kind of array. */
  function SearchIndex(cdf: Floats, r: real): (i: nat)
    ensures i <= Length(cdf)
  {
    match cdf
    case Numbers(c) => BisectLeft(c, r)
    case Specials(e) => BisectLeft(Comparable(e, r), r)
  }

  /** On a cdf of NaNs no comparison holds, so the search stops at index 0. */
  lemma SearchNaNs(e: seq<Special>, r: real)
    requires forall k :: 0 <= k < |e| ==> e[k] == NaN
    ensures SearchIndex(Specials(e), r) == 0
  {
    var keys := Comparable(e, r);
    assert Sorted(keys);
    if |keys| > 0 {
      assert !(keys[0] < r);
    }
  }

  /** `Event.generate_event_time(cdf, time_range)`: the bin width is read first
      (IndexError on fewer than two grid points), then the leftmost cdf index
      not below `r` is used unclamped, and `u` of a bin is added. */
  function GenerateEventTime(cdf: Floats, grid: seq<real>, r: real, u: real): (t: Result<real>)
    ensures |grid| < 2 ==> t == Err(IndexError)
    ensures |grid| >= 2 ==>
      var i := SearchIndex(cdf, r);
      && (t.Ok? <==> i < |grid|)
      && (t.Err? ==> t.error == IndexError)
      && (t.Ok? && 0.0 <= u < 1.0 && grid[0] < grid[1] ==>
            grid[i] <= t.value < grid[i] + (grid[1] - grid[0]))
  {
    if |grid| < 2 then Err(IndexError)
    else
      var dBin := grid[1] - grid[0];
      var i := SearchIndex(cdf, r);
      // `if i: pass else: i = 0` leaves i as it is
      FractionOfBin(u, dBin);
      if i < |grid| then Ok(grid[i] + u * dBin) else Err(IndexError)
  }

  /** `u` of a bin stays inside the bin. */
  lemma FractionOfBin(u: real, width: real)
    ensures 0.0 <= u < 1.0 && width > 0.0 ==> 0.0 <= u * width < width
  {
    if 0.0 <= u < 1.0 && width > 0.0 {
      assert u * width < 1.0 * width;
    }
  }

  /** When the last cdf entry is 1 and `r < 1`, the index stays inside the grid. */
  lemma EventIndexInRange(cdf: seq<real>, grid: seq<real>, r: real, u: real)
    requires Sorted(cdf) && |cdf| == |grid| >= 2 && cdf[|cdf| - 1] == 1.0 && r < 1.0
    ensures GenerateEventTime(Numbers(cdf), grid, r, u).Ok?
  {
  }

  /** Nothing clamps the index: an `r` beyond the last cdf entry indexes one past
      the grid and raises IndexError. */
  lemma EventPastLastBin(cdf: seq<real>, grid: seq<real>, r: real, u: real)
    requires Sorted(cdf) && |cdf| == |grid| >= 2 && r > cdf[|cdf| - 1]
    ensures GenerateEventTime(Numbers(cdf), grid, r, u) == Err(IndexError)
  {
  }

  /** Nothing guards the first bin: with `r <= cdf[0]` and `u = 0` the time is
      exactly the first grid point (0 for the default `time_start`). */
  lemma EventAtGridStart(cdf: seq<real>, grid: seq<real>, r: real)
    requires Sorted(cdf) && |cdf| == |grid| >= 2 && r <= cdf[0]
    ensures GenerateEventTime(Numbers(cdf), grid, r, 0.0) == Ok(grid[0])
  {
  }

  /** Sampling a built distribution with `r, u` in [0, 1) always succeeds, and
      the time lies in `[time_start, time_range + dt)`, inside the bin
      `[grid[i], grid[i] + dt)` that the search picked. */
  lemma EventFromDistribution(halfLife: real, timeRange: real, timeStart: real, amplitude: real,
                              decay: real -> real, r: real, u: real)
    requires halfLife > 0.0 && amplitude > 0.0
    requires forall t :: decay(t) > 0.0
    requires ArangeLen(timeStart, timeRange, Dt(halfLife)) >= 2
    requires 0.0 <= r < 1.0 && 0.0 <= u < 1.0
    ensures var d := NewDistribution(halfLife, timeRange, decay, timeStart, amplitude);
      var t := GenerateEventTime(d.cdf, d.grid, r, u);
      && t.Ok?
      && timeStart <= t.value < timeRange + d.dt
  {
    DistributionWellFormed(halfLife, timeRange, timeStart, amplitude, decay);
    var d := NewDistribution(halfLife, timeRange, decay, timeStart, amplitude);
    EventInWindow(d.cdf.values, d.grid, timeStart, timeRange, d.dt, r, u);
  }

  lemma EventInWindow(cdf: seq<real>, grid: seq<real>, timeStart: real, timeRange: real, dt: real,
                      r: real, u: real)
    requires dt > 0.0 && grid == Arange(timeStart, timeRange, dt)
    requires |cdf| == |grid| >= 2 && cdf[|cdf| - 1] == 1.0
    requires forall i, j :: 0 <= i <= j < |cdf| ==> cdf[i] <= cdf[j]
    requires 0.0 <= r < 1.0 && 0.0 <= u < 1.0
    ensures GenerateEventTime(Numbers(cdf), grid, r, u).Ok?
    ensures timeStart <= GenerateEventTime(Numbers(cdf), grid, r, u).value < timeRange + dt
  {
    assert Sorted(cdf);
    EventIndexInRange(cdf, grid, r, u);
    var i := BisectLeft(cdf, r);
    NextPoint(timeStart, dt, 0);
    assert grid[1] - grid[0] == dt;
    var t := GenerateEventTime(Numbers(cdf), grid, r, u).value;
    assert t == grid[i] + u * dt;
    PointInWindow(timeStart, timeRange, dt, i, u);
  }

  /** A point of the grid plus `u` of a bin lies in `[start, stop + step)`. */
  lemma PointInWindow(start: real, stop: real, step: real, i: nat, u: real)
    requires step > 0.0 && i < ArangeLen(start, stop, step) && 0.0 <= u < 1.0
    ensures start <= start + i as real * step + u * step < stop + step
  {
    ArangeBelowStop(start, stop, step, i);
    NonNegativeProduct(i as real, step);
    FractionOfBin(u, step);
  }

  lemma NonNegativeProduct(a: real, b: real)
    requires a >= 0.0 && b >= 0.0
    ensures a * b >= 0.0
  {
  }

  /** A window of one grid point builds without error (pdf `[inf]`, cdf
      `[nan]`), and it is the event that raises: IndexError on `time_range[1]`,
      whatever the draws. */
  lemma EventOnOnePointGrid(halfLife: real, timeRange: real, timeStart: real, amplitude: real,
                            decay: real -> real, r: real, u: real)
    requires halfLife > 0.0 && amplitude > 0.0
    requires forall t :: decay(t) > 0.0
    requires ArangeLen(timeStart, timeRange, Dt(halfLife)) == 1
    ensures var d := NewDistribution(halfLife, timeRange, decay, timeStart, amplitude);
      && d.pdf == Specials([PosInf]) && d.cdf == Specials([NaN])
      && GenerateEventTime(d.cdf, d.grid, r, u) == Err(IndexError)
  {
    OnePointDistribution(halfLife, timeRange, timeStart, amplitude, decay);
  }
}
