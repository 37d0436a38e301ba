/** What `ChainSimulation.run_simulation` promises about its results: one row
    per trial, each row as long as its path and ending in `'SF'`, every row
    grouped under its own path id, a frame for every group, and at most one
    distribution built per half-life over the whole run. */
module SimulationFacts {
  import opened Basics
  import opened Text
  import opened States
  import opened Chains
  import opened Groups
  import opened Simulation

  /** A successful trial is `AfterWalk` of a well-shaped walk from the
      initial state that used at most the picks available. */
  lemma TrialWalk(trial: TrialFn, db: Database, s0: State, build: Builder, p: Progress)
    requires DriverReady(db, s0) && Plays(trial, db, s0, build) && trial(p).Ok?
    ensures var walk := WalkFrom(db, s0, p.picks);
      && walk.Ok? && WellShaped(walk.value) && Usable(walk, |p.picks|)
      && trial(p) == AfterWalk(build, p, walk)
  {
    assert trial(p) == Trial(db, s0, build, p);
    WalkShape(db, s0, p.picks);
    WalkHalfLivesPositive(db, s0, p.picks);
  }

  /** A successful `AfterWalk` is the corrected chain of the walk and the
      times the sampling loop gave for every element but the last. */
  lemma AfterWalkIs(build: Builder, p: Progress, w: Walk)
    requires Usable(Ok(w), |p.picks|) && AfterWalk(build, p, Ok(w)).Ok?
    ensures var c := MakeChainCorrected(w);
      var acc0 := Sampling([], p.cache, p.builds, p.uniforms);
      && HalfLivesPositive(c.chain[..|c.chain| - 1])
      && SampleFrom(c.chain[..|c.chain| - 1], build, acc0).Ok?
      && var acc := SampleFrom(c.chain[..|c.chain| - 1], build, acc0).value;
         AfterWalk(build, p, Ok(w)).value
           == (Outcome(c.id, c.chain, StoredRow(acc.times)), Progress(acc.cache, acc.builds, p.picks[w.used..], acc.uniforms))
  {
    StepsPositive(Ok(w), |p.picks|);
  }

  /** The record a trial leaves: its chain starts at the initial state, and its
      row holds one time per element but the last, then `'SF'`. */
  predicate WellRecorded(s0: State, o: Outcome)
  {
    && |o.chain| >= 1 && o.chain[0] == s0
    && |o.row| == |o.chain|
    && o.row[|o.row| - 1] == Marker("SF")
    && forall k :: 0 <= k < |o.row| - 1 ==> o.row[k].Time?
  }

  /** The row `AfterWalk` stores has one time per element but the last, then
      `'SF'`. */
  lemma AfterWalkRow(build: Builder, p: Progress, w: Walk)
    requires Usable(Ok(w), |p.picks|) && AfterWalk(build, p, Ok(w)).Ok?
    ensures var o := AfterWalk(build, p, Ok(w)).value.0;
      WellRecorded(w.chain[0].state, o) && o.chain == StatesOf(w.chain)
  {
    AfterWalkIs(build, p, w);
    var c := MakeChainCorrected(w);
    var steps := c.chain[..|c.chain| - 1];
    var acc0 := Sampling([], p.cache, p.builds, p.uniforms);
    SampleFromCounts(steps, build, acc0);
    var acc := SampleFrom(steps, build, acc0).value;
    var row := StoredRow(acc.times);
    assert |row| == |c.chain|;
    forall k | 0 <= k < |row| - 1 ensures row[k].Time? {
      assert row[k] == TimeCells(acc.times)[k];
    }
  }

  lemma TrialRow(trial: TrialFn, db: Database, s0: State, build: Builder, p: Progress)
    requires DriverReady(db, s0) && Plays(trial, db, s0, build) && trial(p).Ok?
    ensures WellRecorded(s0, trial(p).value.0)
  {
    TrialWalk(trial, db, s0, build, p);
    WalkSteps(db, s0, p.picks);
    AfterWalkRow(build, p, WalkFrom(db, s0, p.picks).value);
  }

  /** With space-free decay labels, the column names derived from a trial's id
      are the ids of its chain, one per cell of its row. */
  lemma TrialColumns(trial: TrialFn, db: Database, s0: State, build: Builder, p: Progress)
    requires DriverReady(db, s0) && SpaceFreeLabels(db) && Plays(trial, db, s0, build) && trial(p).Ok?
    ensures var o := trial(p).value.0;
      && |Columns(o.id)| == |o.chain| == |o.row|
      && forall i :: 0 <= i < |o.chain| ==> Columns(o.id)[i] == o.chain[i].id
  {
    TrialWalk(trial, db, s0, build, p);
    var w := WalkFrom(db, s0, p.picks).value;
    AfterWalkIs(build, p, w);
    AfterWalkRow(build, p, w);
    ChainColumns(db, s0, p.picks);
  }

  /** The draws a trial consumes: one pick per (state, decay label) pair of its
      path, and two uniforms per sampled element. */
  lemma TrialDraws(trial: TrialFn, db: Database, s0: State, build: Builder, p: Progress)
    requires DriverReady(db, s0) && Plays(trial, db, s0, build) && trial(p).Ok?
    ensures var (o, q) := trial(p).value;
      && |o.chain| >= 1
      && |q.picks| <= |p.picks| && q.picks == p.picks[|p.picks| - |q.picks|..]
      && |p.picks| - |q.picks| == |o.chain| - (if o.chain[|o.chain| - 1].halfLife.None? then 1 else 0)
      && 2 * (|o.chain| - 1) <= |p.uniforms| && q.uniforms == p.uniforms[2 * (|o.chain| - 1)..]
  {
    TrialWalk(trial, db, s0, build, p);
    var w := WalkFrom(db, s0, p.picks).value;
    AfterWalkIs(build, p, w);
    AfterWalkRow(build, p, w);
    var c := MakeChainCorrected(w);
    SampleFromCounts(c.chain[..|c.chain| - 1], build, Sampling([], p.cache, p.builds, p.uniforms));
    if w.chain[|w.chain| - 1].Pair? {
      WalkFinalDraw(db, s0, p.picks);
    }
  }

  /** A trial keeps the cache coherent with `build`, changes no cached entry,
      and builds exactly the distributions it adds. */
  lemma TrialCache(trial: TrialFn, db: Database, s0: State, build: Builder, p: Progress)
    requires DriverReady(db, s0) && Plays(trial, db, s0, build) && trial(p).Ok?
    requires Coherent(p.cache, build) && p.builds == |p.cache|
    ensures var q := trial(p).value.1;
      && Coherent(q.cache, build) && q.builds == |q.cache|
      && forall h :: h in p.cache ==> h in q.cache && q.cache[h] == p.cache[h]
  {
    TrialWalk(trial, db, s0, build, p);
    var w := WalkFrom(db, s0, p.picks).value;
    AfterWalkIs(build, p, w);
    var c := MakeChainCorrected(w);
    SampleFromCache(c.chain[..|c.chain| - 1], build, Sampling([], p.cache, p.builds, p.uniforms));
  }

  /** A run of `n` trials that finishes has `n` outcomes, and its first `k`
      outcomes are the run of `k` trials. */
  lemma {:induction false} RunPrefix(trial: TrialFn, k: nat, n: nat, p0: Progress)
    requires k <= n && Run(trial, n, p0).Ok?
    ensures |Run(trial, n, p0).value.0| == n
    ensures Run(trial, k, p0).Ok? && Run(trial, k, p0).value.0 == Run(trial, n, p0).value.0[..k]
    decreases n
  {
    if n > 0 {
      var m: nat := if k == n then n - 1 else k;
      RunPrefix(trial, m, n - 1, p0);
      var outs := Run(trial, n, p0).value.0;
      assert outs[..n - 1] == Run(trial, n - 1, p0).value.0;
      if k < n {
        assert outs[..k] == outs[..n - 1][..k];
      }
    }
  }

  /** A property every successful trial gives its outcome holds of every
      outcome of a run. */
  lemma {:induction false} RunAll(trial: TrialFn, n: nat, p0: Progress, Q: Outcome -> bool)
    requires forall p :: trial(p).Ok? ==> Q(trial(p).value.0)
    requires Run(trial, n, p0).Ok?
    ensures forall i :: 0 <= i < |Run(trial, n, p0).value.0| ==> Q(Run(trial, n, p0).value.0[i])
    decreases n
  {
    if n > 0 {
      RunAll(trial, n - 1, p0, Q);
      var (done, p) := Run(trial, n - 1, p0).value;
      assert Run(trial, n, p0).value.0 == done + [trial(p).value.0];
    }
  }

  /** A property of the progress that every successful trial keeps holds after
      the whole run. */
  lemma {:induction false} RunKeeps(trial: TrialFn, n: nat, p0: Progress, Inv: Progress -> bool)
    requires Inv(p0) && forall p :: Inv(p) && trial(p).Ok? ==> Inv(trial(p).value.1)
    requires Run(trial, n, p0).Ok?
    ensures Inv(Run(trial, n, p0).value.1)
    decreases n
  {
    if n > 0 {
      RunKeeps(trial, n - 1, p0, Inv);
    }
  }

  /** Over a whole run the cache stays coherent and the number of distributions
      built (the messages of line 114) equals the number of distinct half-lives
      cached: no half-life is built twice. */
  lemma RunCache(db: Database, s0: State, n: nat, factor: real, law: Law, picks: seq<nat>, uniforms: seq<real>)
    requires DriverReady(db, s0)
    requires Run(TrialOf(db, s0, BuilderOf(factor, law)), n, Fresh(picks, uniforms)).Ok?
    ensures var q := Run(TrialOf(db, s0, BuilderOf(factor, law)), n, Fresh(picks, uniforms)).value.1;
      Coherent(q.cache, BuilderOf(factor, law)) && q.builds == |q.cache|
  {
    var build := BuilderOf(factor, law);
    var trial := TrialOf(db, s0, build);
    var inv := (q: Progress) => Coherent(q.cache, build) && q.builds == |q.cache|;
    assert Plays(trial, db, s0, build);
    forall p | inv(p) && trial(p).Ok? ensures inv(trial(p).value.1) {
      TrialCache(trial, db, s0, build, p);
    }
    RunKeeps(trial, n, Fresh(picks, uniforms), inv);
  }

  /** Every outcome of a run is well recorded. */
  lemma RunRows(db: Database, s0: State, build: Builder, n: nat, p0: Progress)
    requires DriverReady(db, s0) && Run(TrialOf(db, s0, build), n, p0).Ok?
    ensures var outs := Run(TrialOf(db, s0, build), n, p0).value.0;
      |outs| == n && forall i :: 0 <= i < n ==> WellRecorded(s0, outs[i])
  {
    var trial := TrialOf(db, s0, build);
    var q := (o: Outcome) => WellRecorded(s0, o);
    assert Plays(trial, db, s0, build);
    forall p | trial(p).Ok? ensures q(trial(p).value.0) {
      TrialRow(trial, db, s0, build, p);
    }
    RunAll(trial, n, p0, q);
    RunPrefix(trial, n, n, p0);
  }

  /** A finished run: the dict holds `n` rows in all, the rows under each id are
      that id's rows in trial order, its keys are exactly the ids that occurred,
      and every row is well recorded. */
  lemma SimulateGroups(db: Database, s0: State, n: nat, factor: real, law: Law, picks: seq<nat>, uniforms: seq<real>)
    requires DriverReady(db, s0)
    requires Simulate(db, s0, n, factor, law, picks, uniforms).Ok?
    ensures var outs := Run(TrialOf(db, s0, BuilderOf(factor, law)), n, Fresh(picks, uniforms)).value.0;
      var g := Simulate(db, s0, n, factor, law, picks, uniforms).value.0;
      && |outs| == n
      && (forall i :: 0 <= i < n ==> WellRecorded(s0, outs[i]))
      && g == GroupAll(Entries(outs))
      && TotalRows(g) == n
      && (forall id :: RowsUnder(g, id) == RowsWithId(Entries(outs), id))
      && (forall id :: id in Ids(g) <==> Occurs(Entries(outs), id))
  {
    var build := BuilderOf(factor, law);
    RunRows(db, s0, build, n, Fresh(picks, uniforms));
    var outs := Run(TrialOf(db, s0, build), n, Fresh(picks, uniforms)).value.0;
    GroupAllTotal(Entries(outs));
    forall id ensures RowsUnder(GroupAll(Entries(outs)), id) == RowsWithId(Entries(outs), id) {
      GroupAllRows(Entries(outs), id);
    }
    forall id ensures id in Ids(GroupAll(Entries(outs))) <==> Occurs(Entries(outs), id) {
      GroupAllIds(Entries(outs), id);
    }
  }

  /** The number of columns line 130-131 derive from a path id. */
  function ColumnCount(id: string): nat
  {
    |Columns(id)|
  }

  /** With space-free decay labels every row a run groups has one cell per
      column of its id. */
  lemma RunFits(db: Database, s0: State, build: Builder, n: nat, p0: Progress)
    requires DriverReady(db, s0) && SpaceFreeLabels(db) && Run(TrialOf(db, s0, build), n, p0).Ok?
    ensures Fits(GroupAll(Entries(Run(TrialOf(db, s0, build), n, p0).value.0)), ColumnCount)
  {
    var trial := TrialOf(db, s0, build);
    var q := (o: Outcome) => |o.row| == ColumnCount(o.id);
    assert Plays(trial, db, s0, build);
    forall p | trial(p).Ok? ensures q(trial(p).value.0) {
      TrialColumns(trial, db, s0, build, p);
    }
    RunAll(trial, n, p0, q);
    var es := Entries(Run(trial, n, p0).value.0);
    GroupAllFits(es, ColumnCount);
  }

  /** With space-free decay labels the frames never fail: once the trials
      succeed, every group becomes the frame of its rows under the column names
      of its id. */
  lemma SimulateFrames(db: Database, s0: State, n: nat, factor: real, law: Law, picks: seq<nat>, uniforms: seq<real>)
    requires DriverReady(db, s0) && SpaceFreeLabels(db)
    requires Run(TrialOf(db, s0, BuilderOf(factor, law)), n, Fresh(picks, uniforms)).Ok?
    ensures Simulate(db, s0, n, factor, law, picks, uniforms).Ok?
    ensures var (g, frames) := Simulate(db, s0, n, factor, law, picks, uniforms).value;
      frames == FramesOf(g)
  {
    RunFits(db, s0, BuilderOf(factor, law), n, Fresh(picks, uniforms));
    var outs := Run(TrialOf(db, s0, BuilderOf(factor, law)), n, Fresh(picks, uniforms)).value.0;
    var g := GroupAll(Entries(outs));
    FramesOfFitting(g, []);
    assert [] + FramesOf(g) == FramesOf(g);
  }

  /** Each group as the frame of its rows under the column names of its id. */
  function FramesOf(g: seq<(string, seq<Row>)>): (frames: seq<(string, Frame)>)
    ensures |frames| == |g|
    ensures forall i :: 0 <= i < |g| ==> frames[i] == (g[i].0, Frame(Columns(g[i].0), g[i].1))
  {
    seq(|g|, i requires 0 <= i < |g| => (g[i].0, Frame(Columns(g[i].0), g[i].1)))
  }

  lemma FramesOfCons(g: seq<(string, seq<Row>)>)
    requires g != []
    ensures FramesOf(g) == [(g[0].0, Frame(Columns(g[0].0), g[0].1))] + FramesOf(g[1..])
  {
  }

  /** Frames of groups whose rows fit their columns. */
  lemma {:induction false} FramesOfFitting(g: seq<(string, seq<Row>)>, done: seq<(string, Frame)>)
    requires Fits(g, ColumnCount)
    ensures FramesFrom(g, done) == Ok(done + FramesOf(g))
    decreases |g|
  {
    if g == [] {
      assert done + FramesOf(g) == done;
    } else {
      FrameOfFittingRows(g[0].1, Columns(g[0].0));
      var f := (g[0].0, Frame(Columns(g[0].0), g[0].1));
      FramesOfFitting(g[1..], done + [f]);
      FramesOfCons(g);
      assert done + [f] + FramesOf(g[1..]) == done + ([f] + FramesOf(g[1..]));
    }
  }

  /** The walk a trial starts from `p` reaches a stable state. */
  predicate EndsStable(db: Database, s0: State, p: Progress)
  {
    var walk := WalkFrom(db, s0, p.picks);
    walk.Ok? && |walk.value.chain| > 0 && walk.value.chain[|walk.value.chain| - 1].state.halfLife.None?
  }

  /** Trial `k` of the corrected run is reached, and its walk reaches a stable state. */
  predicate StableAt(db: Database, s0: State, build: Builder, k: nat, p0: Progress)
    requires DriverReady(db, s0)
  {
    var run := Run(TrialOf(db, s0, build), k, p0);
    run.Ok? && EndsStable(db, s0, run.value.1)
  }

  /** The trial as written raises TypeError exactly when its walk reaches a
      stable state, and is the corrected trial otherwise. */
  lemma TrialAsWrittenIs(db: Database, s0: State, build: Builder, p: Progress)
    requires DriverReady(db, s0)
    ensures TrialAsWritten(db, s0, build, p) ==
      if EndsStable(db, s0, p) then Err(TypeError) else Trial(db, s0, build, p)
  {
    var walk := WalkFrom(db, s0, p.picks);
    if walk.Ok? {
      WalkShape(db, s0, p.picks);
      WalkHalfLivesPositive(db, s0, p.picks);
      ChainFailsIffStable(db, s0, p.picks);
      AfterWalkAsWrittenIs(build, p, walk);
    }
  }

  /** Once the walk is known, the trial as written fails exactly when
      `MakeChain` does, and is the corrected trial otherwise. */
  lemma AfterWalkAsWrittenIs(build: Builder, p: Progress, walk: Result<Walk>)
    requires Usable(walk, |p.picks|) && walk.Ok?
    ensures AfterWalkAsWritten(build, p, walk) ==
      if MakeChain(walk.value).Err? then Err(TypeError) else AfterWalk(build, p, walk)
  {
  }

  /** Trial `k` of the run of `trial` is reached, and `stops` holds of the
      progress it starts from. */
  predicate StopsAt(trial: TrialFn, stops: Progress -> bool, k: nat, p0: Progress)
  {
    var run := Run(trial, k, p0);
    run.Ok? && stops(run.value.1)
  }

  /** A trial that raises TypeError where `stops` holds and is `corrected`
      elsewhere gives the run of `corrected` until the first such trial, and
      TypeError from then on. */
  lemma {:induction false} RunDiverted(written: TrialFn, corrected: TrialFn, stops: Progress -> bool,
                                       n: nat, p0: Progress)
    requires forall p :: written(p) == if stops(p) then Err(TypeError) else corrected(p)
    ensures Run(written, n, p0) ==
      if exists k :: 0 <= k < n && StopsAt(corrected, stops, k, p0) then Err(TypeError)
      else Run(corrected, n, p0)
    decreases n
  {
    if n > 0 {
      RunDiverted(written, corrected, stops, n - 1, p0);
      if exists k :: 0 <= k < n - 1 && StopsAt(corrected, stops, k, p0) {
        assert Run(written, n - 1, p0) == Err(TypeError);
      } else if Run(corrected, n - 1, p0).Err? {
        assert !StopsAt(corrected, stops, n - 1, p0);
      } else {
        assert StopsAt(corrected, stops, n - 1, p0) == stops(Run(corrected, n - 1, p0).value.1);
      }
    }
  }

  /** The run as written is the corrected run until the first trial whose walk
      reaches a stable state, and that trial ends it with TypeError. */
  lemma RunAsWritten(db: Database, s0: State, build: Builder, n: nat, p0: Progress)
    requires DriverReady(db, s0)
    ensures Run(TrialAsWrittenOf(db, s0, build), n, p0) ==
      if exists k :: 0 <= k < n && StableAt(db, s0, build, k, p0) then Err(TypeError)
      else Run(TrialOf(db, s0, build), n, p0)
  {
    var written, corrected := TrialAsWrittenOf(db, s0, build), TrialOf(db, s0, build);
    var stops := (p: Progress) => EndsStable(db, s0, p);
    forall p ensures written(p) == if stops(p) then Err(TypeError) else corrected(p) {
      TrialAsWrittenIs(db, s0, build, p);
    }
    RunDiverted(written, corrected, stops, n, p0);
    assert forall k :: StableAt(db, s0, build, k, p0) == StopsAt(corrected, stops, k, p0);
  }

  /** `run_simulation` as written raises TypeError as soon as one trial's walk
      reaches a stable state; when none does, it is the corrected simulation. */
  lemma SimulateAsWrittenIs(db: Database, s0: State, n: nat, factor: real, law: Law,
                            picks: seq<nat>, uniforms: seq<real>)
    requires DriverReady(db, s0)
    ensures SimulateAsWritten(db, s0, n, factor, law, picks, uniforms) ==
      if exists k :: 0 <= k < n && StableAt(db, s0, BuilderOf(factor, law), k, Fresh(picks, uniforms))
      then Err(TypeError)
      else Simulate(db, s0, n, factor, law, picks, uniforms)
  {
    RunAsWritten(db, s0, BuilderOf(factor, law), n, Fresh(picks, uniforms));
  }
}
