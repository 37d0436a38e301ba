/** The Monte Carlo driver `ChainSimulation` (`_simulations/chain_simulation.py`).
    The draws of `np.random.choice` and the two `random.random()` calls per
    event come from the finite sequences `picks` and `uniforms`, consumed in
    order across the trials; running out of them is the error Exhausted. The
    decay law `exp(-ln 2 * t / h)` is the parameter `law(h, t)`. */
module Simulation {
  import opened Basics
  import opened Text
  import opened States
  import opened Distributions
  import opened Events
  import opened Chains
  import opened Groups

  type Law = (real, real) -> real

  /** The decay law of half-life `h` as a function of time. */
  function LawOf(law: Law, h: real): real -> real
  {
    t => law(h, t)
  }

  /** Line 115: `Distribution(h, factor * h)`, starting at 0 with amplitude 1. */
  function Build(h: real, factor: real, law: Law): Distribution
    requires h > 0.0
  {
    NewDistribution(h, factor * h, LawOf(law, h))
  }

  /** `temp_dist_dict`: built distributions keyed by half-life. */
  type Cache = map<real, Distribution>

  type PositiveReal = r: real | r > 0.0 witness 1.0

  /** Line 115 as a function of the half-life: `h => Distribution(h, factor * h)`. */
  type Builder = PositiveReal -> Distribution

  function BuilderOf(factor: real, law: Law): (build: Builder)
    ensures forall h: PositiveReal :: build(h) == Build(h, factor, law)
  {
    (h: PositiveReal) => Build(h, factor, law)
  }

  /** Every cached distribution is the one `build` gives for its key. */
  predicate Coherent(cache: Cache, build: Builder)
  {
    forall h :: h in cache ==> h > 0.0 && build(h) == cache[h]
  }

  /** The state of one trial's sampling loop: the times so far, the cache, the
      number of distributions built (one console message each, line 114), and
      the uniforms not yet drawn. */
  datatype Sampling = Sampling(times: seq<real>, cache: Cache, builds: nat, uniforms: seq<real>)

  predicate HalfLivesPositive(states: seq<State>)
  {
    forall i :: 0 <= i < |states| ==> PositiveHalfLife(states[i].halfLife)
  }

  /** Lines 108-119: one iteration of the sampling loop for `step`: fetch or
      build its distribution, then sample one event time from it with the next
      two uniforms. */
  function SampleStep(step: State, build: Builder, acc: Sampling): Result<Sampling>
    requires PositiveHalfLife(step.halfLife)
  {
    if step.halfLife.None? then Err(TypeError)
    else
      var h := step.halfLife.value;
      var d := if h in acc.cache then acc.cache[h] else build(h);
      var cache := if h in acc.cache then acc.cache else acc.cache[h := d];
      var builds := if h in acc.cache then acc.builds else acc.builds + 1;
      if |acc.uniforms| < 2 then Err(Exhausted)
      else
        match GenerateEventTime(d.cdf, d.grid, acc.uniforms[0], acc.uniforms[1])
        case Err(e) => Err(e)
        case Ok(t) => Ok(Sampling(acc.times + [t], cache, builds, acc.uniforms[2..]))
  }

  /** Lines 107-119: the sampling loop over `states`, one step per call. */
  function SampleFrom(states: seq<State>, build: Builder, acc: Sampling): Result<Sampling>
    requires HalfLivesPositive(states)
    decreases |states|
  {
    if states == [] then Ok(acc)
    else
      match SampleStep(states[0], build, acc)
      case Err(e) => Err(e)
      case Ok(next) => SampleFrom(states[1..], build, next)
  }

  /** The inner for-loop of `run_simulation` (lines 105-119). */
  method SampleEventTimes(states: seq<State>, build: Builder,
                          cache0: Cache, builds0: nat, uniforms0: seq<real>) returns (r: Result<Sampling>)
    requires HalfLivesPositive(states)
    ensures r == SampleFrom(states, build, Sampling([], cache0, builds0, uniforms0))
  {
    var acc := Sampling([], cache0, builds0, uniforms0);
    var i := 0;
    while i < |states|
      invariant i <= |states|
      invariant SampleFrom(states, build, Sampling([], cache0, builds0, uniforms0))
             == SampleFrom(states[i..], build, acc)
    {
      assert states[i..][0] == states[i] && states[i..][1..] == states[i + 1..];
      var next := SampleOne(states[i], build, acc);
      if next.Err? {
        return Err(next.error);
      }
      acc := next.value;
      i := i + 1;
    }
    assert states[i..] == [];
    return Ok(acc);
  }

  /** Lines 108-119: one iteration of the inner loop. */
  method SampleOne(step: State, build: Builder, acc: Sampling) returns (r: Result<Sampling>)
    requires PositiveHalfLife(step.halfLife)
    ensures r == SampleStep(step, build, acc)
  {
    if step.halfLife.None? {
      return Err(TypeError);
    }
    var h := step.halfLife.value;
    var cache := acc.cache;
    var builds := acc.builds;
    var dist: Distribution;
    if h in cache {
      dist := cache[h];
    } else {
      dist := build(h);
      cache := cache[h := dist];
      builds := builds + 1;
    }
    var uniforms := acc.uniforms;
    if |uniforms| < 2 {
      return Err(Exhausted);
    }
    var t := GenerateEventTime(dist.cdf, dist.grid, uniforms[0], uniforms[1]);
    if t.Err? {
      return Err(t.error);
    }
    return Ok(Sampling(acc.times + [t.value], cache, builds, uniforms[2..]));
  }

  /** A step appends one time and draws the next two uniforms. */
  lemma StepCounts(step: State, build: Builder, acc: Sampling)
    requires PositiveHalfLife(step.halfLife)
    requires SampleStep(step, build, acc).Ok?
    ensures var r := SampleStep(step, build, acc).value;
      && |r.times| == |acc.times| + 1 && r.times[..|acc.times|] == acc.times
      && |acc.uniforms| >= 2 && r.uniforms == acc.uniforms[2..]
  {
  }

  /** A step keeps the cache coherent, changes no entry, and counts a build
      exactly when it adds an entry. */
  lemma StepCache(step: State, build: Builder, acc: Sampling)
    requires PositiveHalfLife(step.halfLife)
    requires SampleStep(step, build, acc).Ok?
    requires Coherent(acc.cache, build) && acc.builds == |acc.cache|
    ensures var r := SampleStep(step, build, acc).value;
      && Coherent(r.cache, build) && r.builds == |r.cache|
      && (forall h :: h in acc.cache ==> h in r.cache && r.cache[h] == acc.cache[h])
  {
    var h := step.halfLife.value;
    if h !in acc.cache {
      var d := build(h);
      var r := SampleStep(step, build, acc).value;
      assert r.cache == acc.cache[h := d];
      assert acc.cache[h := d].Keys == acc.cache.Keys + {h};
    }
  }

  /** With a decay law positive everywhere and a window of at least two grid
      points, sampling line 115's distribution with `r, u` in [0, 1) gives a
      time in `[0, factor * h + dt)`. */
  lemma BuildSamples(h: real, factor: real, law: Law, r: real, u: real)
    requires h > 0.0 && forall h, t :: law(h, t) > 0.0
    requires ArangeLen(0.0, factor * h, Dt(h)) >= 2
    requires 0.0 <= r < 1.0 && 0.0 <= u < 1.0
    ensures var d := Build(h, factor, law);
      var t := GenerateEventTime(d.cdf, d.grid, r, u);
      t.Ok? && 0.0 <= t.value < factor * h + Dt(h)
  {
    var decay := LawOf(law, h);
    forall t ensures decay(t) > 0.0 {
      assert decay(t) == law(h, t);
    }
    EventFromDistribution(h, factor * h, 0.0, 1.0, decay, r, u);
  }

  /** A window of a single grid point (a factor of at most 1/2000) builds
      line 115's distribution without raising, with a cdf of NaN, and its
      event raises IndexError whatever the draws. */
  lemma OnePointWindowRaises(h: real, factor: real, law: Law, r: real, u: real)
    requires h > 0.0 && forall h, t :: law(h, t) > 0.0
    requires ArangeLen(0.0, factor * h, Dt(h)) == 1
    ensures var d := Build(h, factor, law);
      d.cdf == Specials([NaN]) && GenerateEventTime(d.cdf, d.grid, r, u) == Err(IndexError)
  {
    var decay := LawOf(law, h);
    forall t ensures decay(t) > 0.0 {
      assert decay(t) == law(h, t);
    }
    EventOnOnePointGrid(h, factor * h, 0.0, 1.0, decay, r, u);
  }

  /** A sampling loop that finishes samples one time per step, two uniforms
      each, and keeps the times it was given. */
  lemma {:induction false} SampleFromCounts(states: seq<State>, build: Builder, acc: Sampling)
    requires HalfLivesPositive(states) && SampleFrom(states, build, acc).Ok?
    ensures var r := SampleFrom(states, build, acc).value;
      && |r.times| == |acc.times| + |states| && r.times[..|acc.times|] == acc.times
      && 2 * |states| <= |acc.uniforms| && r.uniforms == acc.uniforms[2 * |states|..]
    decreases |states|
  {
    if states != [] {
      var next := SampleStep(states[0], build, acc).value;
      StepCounts(states[0], build, acc);
      SampleFromCounts(states[1..], build, next);
      var r := SampleFrom(states, build, acc).value;
      assert r.times[..|acc.times|] == r.times[..|next.times|][..|acc.times|];
      assert next.uniforms[2 * (|states| - 1)..] == acc.uniforms[2 * |states|..];
    }
  }

  /** The cache only grows, never changes an entry, stays coherent with `Build`,
      and holds exactly one entry per distribution built: a distribution is
      built at most once per half-life. */
  lemma {:induction false} SampleFromCache(states: seq<State>, build: Builder, acc: Sampling)
    requires HalfLivesPositive(states) && SampleFrom(states, build, acc).Ok?
    requires Coherent(acc.cache, build) && acc.builds == |acc.cache|
    ensures var r := SampleFrom(states, build, acc).value;
      && Coherent(r.cache, build) && r.builds == |r.cache|
      && (forall h :: h in acc.cache ==> h in r.cache && r.cache[h] == acc.cache[h])
    decreases |states|
  {
    if states != [] {
      var next := SampleStep(states[0], build, acc).value;
      StepCache(states[0], build, acc);
      SampleFromCache(states[1..], build, next);
    }
  }

  /** One trial's record: the path id, the chain, and the row stored under the id. */
  datatype Outcome = Outcome(id: string, chain: seq<State>, row: Row)

  function TimeCells(times: seq<real>): (cells: Row)
    ensures |cells| == |times| && forall k :: 0 <= k < |times| ==> cells[k] == Time(times[k])
  {
    seq(|times|, k requires 0 <= k < |times| => Time(times[k]))
  }

  /** The row a trial leaves in the dict: its event times, then `'SF'`, which
      line 126 appends to the list after it has been stored. */
  function StoredRow(times: seq<real>): Row
  {
    TimeCells(times) + [Marker("SF")]
  }

  /** What the trial loop carries from one trial to the next: the cache, the
      builds so far, and the draws not yet made. */
  datatype Progress = Progress(cache: Cache, builds: nat, picks: seq<nat>, uniforms: seq<real>)

  /** What a `ChainSimulation` relies on: the database keeps to positive
      half-lives and the initial state was built from it. */
  predicate DriverReady(db: Database, s0: State)
  {
    PositiveHalfLives(db) && Realized(db, s0)
  }

  /** A finished walk of at most `budget` draws whose half-lives are positive. */
  predicate Usable(walk: Result<Walk>, budget: nat)
  {
    walk.Ok? ==>
      && |walk.value.chain| >= 1 && walk.value.used <= budget
      && forall i :: 0 <= i < |walk.value.chain| ==>
           PositiveHalfLife(walk.value.chain[i].state.halfLife)
  }

  /** The steps a usable walk samples have positive half-lives. */
  lemma StepsPositive(walk: Result<Walk>, budget: nat)
    requires Usable(walk, budget) && walk.Ok?
    ensures var c := MakeChainCorrected(walk.value);
      HalfLivesPositive(c.chain[..|c.chain| - 1])
  {
    var c := MakeChainCorrected(walk.value);
    var steps := c.chain[..|c.chain| - 1];
    forall i | 0 <= i < |steps| ensures steps[i] == walk.value.chain[i].state {
    }
  }

  /** Lines 101-126: one trial. The chain is built as in the corrected
      `MakeChainCorrected`; one time is sampled per element but the last. */
  function Trial(db: Database, s0: State, build: Builder, p: Progress): Result<(Outcome, Progress)>
    requires DriverReady(db, s0)
  {
    var walk := WalkFrom(db, s0, p.picks);
    if walk.Ok? then
      WalkShape(db, s0, p.picks);
      WalkHalfLivesPositive(db, s0, p.picks);
      AfterWalk(build, p, walk)
    else
      Err(walk.error)
  }

  /** Lines 102-126: the trial once the walk is known. */
  function AfterWalk(build: Builder, p: Progress, walk: Result<Walk>): Result<(Outcome, Progress)>
    requires Usable(walk, |p.picks|)
  {
    match walk
    case Err(e) => Err(e)
    case Ok(w) =>
      var c := MakeChainCorrected(w);
      StepsPositive(walk, |p.picks|);
      Recorded(c, p.picks[w.used..], SampleFrom(c.chain[..|c.chain| - 1], build,
                                                Sampling([], p.cache, p.builds, p.uniforms)))
  }

  /** Lines 121-126: the row stored under the chain's id, and what the next
      trial starts from. */
  function Recorded(c: ChainObj, picks: seq<nat>, sampled: Result<Sampling>): Result<(Outcome, Progress)>
  {
    match sampled
    case Err(e) => Err(e)
    case Ok(acc) => Ok((Outcome(c.id, c.chain, StoredRow(acc.times)), Progress(acc.cache, acc.builds, picks, acc.uniforms)))
  }

  /** A trial as a function of the progress so far. */
  type TrialFn = Progress -> Result<(Outcome, Progress)>

  /** The trial of lines 101-126 for this database, initial state and
      distribution constructor. */
  function TrialOf(db: Database, s0: State, build: Builder): (trial: TrialFn)
    requires DriverReady(db, s0)
    ensures forall p :: trial(p) == Trial(db, s0, build, p)
  {
    (p: Progress) => Trial(db, s0, build, p)
  }

  /** Lines 101-126 as written: `Chain(...)` is `MakeChain`, which raises
      TypeError for a walk that reached a stable state. */
  function TrialAsWritten(db: Database, s0: State, build: Builder, p: Progress): Result<(Outcome, Progress)>
    requires DriverReady(db, s0)
  {
    var walk := WalkFrom(db, s0, p.picks);
    if walk.Ok? then
      WalkShape(db, s0, p.picks);
      WalkHalfLivesPositive(db, s0, p.picks);
      AfterWalkAsWritten(build, p, walk)
    else
      Err(walk.error)
  }

  /** Lines 102-126 as written, once the walk is known. */
  function AfterWalkAsWritten(build: Builder, p: Progress, walk: Result<Walk>): Result<(Outcome, Progress)>
    requires Usable(walk, |p.picks|)
  {
    match walk
    case Err(e) => Err(e)
    case Ok(w) =>
      match MakeChain(w)
      case Err(e) => Err(e)
      case Ok(c) =>
        StepsPositive(walk, |p.picks|);
        Recorded(c, p.picks[w.used..], SampleFrom(c.chain[..|c.chain| - 1], build,
                                                  Sampling([], p.cache, p.builds, p.uniforms)))
  }

  function TrialAsWrittenOf(db: Database, s0: State, build: Builder): (trial: TrialFn)
    requires DriverReady(db, s0)
    ensures forall p :: trial(p) == TrialAsWritten(db, s0, build, p)
  {
    (p: Progress) => TrialAsWritten(db, s0, build, p)
  }

  /** Lines 100-126: the outcomes of the first `n` trials and the progress
      after them, or the error that interrupted them. */
  function Run(trial: TrialFn, n: nat, p0: Progress): Result<(seq<Outcome>, Progress)>
  {
    if n == 0 then Ok(([], p0))
    else
      match Run(trial, n - 1, p0)
      case Err(e) => Err(e)
      case Ok((done, p)) =>
        match trial(p)
        case Err(e) => Err(e)
        case Ok((o, next)) => Ok((done + [o], next))
  }

  /** An error ends the run: later trials are never played. */
  lemma {:induction false} RunStops(trial: TrialFn, k: nat, n: nat, p0: Progress)
    requires k <= n && Run(trial, k, p0).Err?
    ensures Run(trial, n, p0) == Run(trial, k, p0)
    decreases n
  {
    if k < n {
      RunStops(trial, k, n - 1, p0);
    }
  }

  /** The progress before the first trial. */
  function Fresh(picks: seq<nat>, uniforms: seq<real>): Progress
  {
    Progress(map[], 0, picks, uniforms)
  }

  /** The (path id, row) pairs in trial order. */
  function Entries(os: seq<Outcome>): (es: seq<(string, Row)>)
    ensures |es| == |os| && forall i :: 0 <= i < |os| ==> es[i] == (os[i].id, os[i].row)
  {
    seq(|os|, i requires 0 <= i < |os| => (os[i].id, os[i].row))
  }

  /** The column names line 130-131 derive from a path id. */
  function Columns(id: string): seq<string>
  {
    ColumnNames(Words(id))
  }

  /** Lines 129-133, one group per call after the frames `done`. */
  function FramesFrom(g: seq<(string, seq<Row>)>, done: seq<(string, Frame)>): Result<seq<(string, Frame)>>
  {
    if g == [] then Ok(done)
    else
      match MakeFrame(g[0].1, Columns(g[0].0))
      case Err(e) => Err(e)
      case Ok(f) => FramesFrom(g[1..], done + [(g[0].0, f)])
  }

  /** Lines 121-133 over a whole run: the dict of rows per path id and the
      dict of frames, or the error that interrupted the run. */
  function Collect(run: Result<(seq<Outcome>, Progress)>): Result<(Grouping, seq<(string, Frame)>)>
  {
    match run
    case Err(e) => Err(e)
    case Ok((outcomes, _)) =>
      var groups := GroupAll(Entries(outcomes));
      match FramesFrom(groups, [])
      case Err(e) => Err(e)
      case Ok(frames) => Ok((groups, frames))
  }

  /** `run_simulation(N, dist_time_range_factor)` with the corrected `Chain`. */
  function Simulate(db: Database, s0: State, n: nat, factor: real, law: Law,
                    picks: seq<nat>, uniforms: seq<real>): Result<(Grouping, seq<(string, Frame)>)>
    requires DriverReady(db, s0)
  {
    Collect(Run(TrialOf(db, s0, BuilderOf(factor, law)), n, Fresh(picks, uniforms)))
  }

  /** `run_simulation(N, dist_time_range_factor)` as written. */
  function SimulateAsWritten(db: Database, s0: State, n: nat, factor: real, law: Law,
                             picks: seq<nat>, uniforms: seq<real>): Result<(Grouping, seq<(string, Frame)>)>
    requires DriverReady(db, s0)
  {
    Collect(Run(TrialAsWrittenOf(db, s0, BuilderOf(factor, law)), n, Fresh(picks, uniforms)))
  }

  /** `trial` is the trial of lines 101-126 for this database, initial state
      and distribution constructor. */
  ghost predicate Plays(trial: TrialFn, db: Database, s0: State, build: Builder)
    requires DriverReady(db, s0)
  {
    forall p {:trigger Trial(db, s0, build, p)} :: trial(p) == Trial(db, s0, build, p)
  }

  /** Lines 101-126: the body of the trial loop. */
  method PlayTrial(ghost trial: TrialFn, db: Database, s0: State, build: Builder, p: Progress)
    returns (r: Result<(Outcome, Progress)>)
    requires DriverReady(db, s0) && Plays(trial, db, s0, build)
    ensures r == trial(p)
  {
    var walk := GenerateRandomChain(db, s0, p.picks);
    if walk.Err? {
      assert Trial(db, s0, build, p) == Err(walk.error);
      return Err(walk.error);
    }
    WalkShape(db, s0, p.picks);
    WalkHalfLivesPositive(db, s0, p.picks);
    r := FinishTrial(build, p, walk);
    assert Trial(db, s0, build, p) == r;
  }

  /** Lines 102-126: build the chain object and sample its event times. */
  method FinishTrial(build: Builder, p: Progress, walk: Result<Walk>)
    returns (r: Result<(Outcome, Progress)>)
    requires Usable(walk, |p.picks|) && walk.Ok?
    ensures r == AfterWalk(build, p, walk)
  {
    var chainObj := MakeChainCorrected(walk.value);
    var steps := chainObj.chain[..|chainObj.chain| - 1];
    StepsPositive(walk, |p.picks|);
    var eventTimes := SampleEventTimes(steps, build, p.cache, p.builds, p.uniforms);
    if eventTimes.Err? {
      return Err(eventTimes.error);
    }
    var acc := eventTimes.value;
    var row := StoredRow(acc.times);
    return Ok((Outcome(chainObj.id, chainObj.chain, row),
               Progress(acc.cache, acc.builds, p.picks[walk.value.used..], acc.uniforms)));
  }

  /** Lines 97-126: the trial loop, grouping each stored row under its path id. */
  method RunTrials(ghost trial: TrialFn, db: Database, s0: State, n: nat, build: Builder,
                   picks: seq<nat>, uniforms: seq<real>) returns (r: Result<Grouping>)
    requires DriverReady(db, s0) && Plays(trial, db, s0, build)
    ensures var spec := Run(trial, n, Fresh(picks, uniforms));
      && (r.Ok? <==> spec.Ok?)
      && (r.Ok? ==> r.value == GroupAll(Entries(spec.value.0)))
      && (r.Err? ==> r.error == spec.error)
  {
    var chainSimulations: Grouping := [];
    var progress := Fresh(picks, uniforms);
    ghost var outcomes: seq<Outcome> := [];
    var k := 0;
    while k < n
      invariant k <= n
      invariant Run(trial, k, Fresh(picks, uniforms)) == Ok((outcomes, progress))
      invariant chainSimulations == GroupAll(Entries(outcomes))
    {
      var played := PlayTrial(trial, db, s0, build, progress);
      if played.Err? {
        RunStops(trial, k + 1, n, Fresh(picks, uniforms));
        return Err(played.error);
      }
      var (outcome, next) := played.value;
      EntriesSnoc(outcomes, outcome);
      GroupAllSnoc(Entries(outcomes), (outcome.id, outcome.row));
      chainSimulations := Insert(chainSimulations, outcome.id, outcome.row);
      outcomes := outcomes + [outcome];
      progress := next;
      k := k + 1;
    }
    return Ok(chainSimulations);
  }

  lemma EntriesSnoc(os: seq<Outcome>, o: Outcome)
    ensures Entries(os + [o]) == Entries(os) + [(o.id, o.row)]
  {
  }

  /** Lines 127-133: one frame per path id, columns from the id. */
  method BuildFrames(chainSimulations: Grouping) returns (r: Result<seq<(string, Frame)>>)
    ensures r == FramesFrom(chainSimulations, [])
  {
    var resultDfs: seq<(string, Frame)> := [];
    var j := 0;
    while j < |chainSimulations|
      invariant j <= |chainSimulations|
      invariant FramesFrom(chainSimulations, []) == FramesFrom(chainSimulations[j..], resultDfs)
    {
      assert chainSimulations[j..][0] == chainSimulations[j];
      assert chainSimulations[j..][1..] == chainSimulations[j + 1..];
      var colNames := Columns(chainSimulations[j].0);
      var df := MakeFrame(chainSimulations[j].1, colNames);
      if df.Err? {
        return Err(df.error);
      }
      resultDfs := resultDfs + [(chainSimulations[j].0, df.value)];
      j := j + 1;
    }
    assert chainSimulations[j..] == [];
    return Ok(resultDfs);
  }

  /** Lines 155-161: the mean lifetime stored under the key `A.Z.E`. Both a
      missing table (no run yet) and a missing key end in KeyError. */
  function MeanLifetimeAt(table: Option<map<string, real>>, a: int, z: int, e: int := 0): (r: Result<real>)
    ensures r.Ok? <==> table.Some? && Key(a, z, e) in table.value
    ensures r.Ok? ==> r.value == table.value[Key(a, z, e)]
    ensures r.Err? ==> r.error == KeyError
  {
    if table.Some? && Key(a, z, e) in table.value then Ok(table.value[Key(a, z, e)]) else Err(KeyError)
  }

  /** The lookup of one state sees only the entry of that state: storing a
      value for `(a', z', e')` changes the answer for `(a, z, e)` exactly when
      the two triples are equal. */
  lemma MeanLifetimeOwnEntry(table: map<string, real>, a': int, z': int, e': int, v: real,
                             a: int, z: int, e: int)
    ensures MeanLifetimeAt(Some(table[Key(a', z', e') := v]), a, z, e) ==
      if a == a' && z == z' && e == e' then Ok(v) else MeanLifetimeAt(Some(table), a, z, e)
  {
    KeyInjective(a, z, e, a', z', e');
  }

  /** `ChainSimulation`: the database and initial state it was made from, the
      two lists read from the database, and the results of the last run. */
  class ChainSimulation {
    const db: Database
    const initialState: State
    const allStates: seq<string>
    const trueHalfLives: seq<Option<real>>
    var result: Option<Grouping>
    var resultDfs: Option<seq<(string, Frame)>>
    var meanLifetimes: Option<map<string, real>>

    /** Lines 83-88. */
    constructor (db: Database, initialState: State)
      ensures this.db == db && this.initialState == initialState
      ensures allStates == AllStates(db) && trueHalfLives == TrueHalfLives(db)
      ensures result == None && resultDfs == None && meanLifetimes == None
    {
      this.db := db;
      this.initialState := initialState;
      allStates := AllStates(db);
      trueHalfLives := TrueHalfLives(db);
      result := None;
      resultDfs := None;
      meanLifetimes := None;
    }

    /** Lines 90-136: `n` trials, then one frame per path id. The two result
        attributes are assigned only when the whole run succeeds; the table of
        mean lifetimes (lines 138-151, float aggregation) is the parameter
        `means`. */
    method RunSimulation(law: Law, picks: seq<nat>, uniforms: seq<real>, means: map<string, real>,
                         n: nat := 10000, factor: real := 5.0)
      returns (r: Result<(Grouping, seq<(string, Frame)>)>)
      requires DriverReady(db, initialState)
      modifies this
      ensures r == Simulate(db, initialState, n, factor, law, picks, uniforms)
      ensures r.Ok? ==> result == Some(r.value.0) && resultDfs == Some(r.value.1)
      ensures r.Ok? ==> meanLifetimes == Some(means)
      ensures r.Err? ==> result == old(result) && resultDfs == old(resultDfs)
      ensures r.Err? ==> meanLifetimes == old(meanLifetimes)
    {
      var build := BuilderOf(factor, law);
      ghost var trial := TrialOf(db, initialState, build);
      var chainSimulations := RunTrials(trial, db, initialState, n, build, picks, uniforms);
      if chainSimulations.Err? {
        return Err(chainSimulations.error);
      }
      var frames := BuildFrames(chainSimulations.value);
      if frames.Err? {
        return Err(frames.error);
      }
      result := Some(chainSimulations.value);
      resultDfs := Some(frames.value);
      meanLifetimes := Some(means);
      r := Ok((chainSimulations.value, frames.value));
    }

    /** `get_mean_lifetime(A, Z, E=0)`, lines 155-161. */
    method GetMeanLifetime(a: int, z: int, e: int := 0) returns (r: Result<real>)
      ensures r.Ok? <==> meanLifetimes.Some? && Key(a, z, e) in meanLifetimes.value
      ensures r.Ok? ==> r.value == meanLifetimes.value[Key(a, z, e)]
      ensures r.Err? ==> r.error == KeyError
    {
      r := MeanLifetimeAt(meanLifetimes, a, z, e);
    }
  }
}
