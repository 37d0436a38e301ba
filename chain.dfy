/** One random walk down the decay graph and the `Chain` object built from it
    (`Chain` in `_simulations/chain_simulation.py`). The branch drawn by
    `np.random.choice` at step k is row `picks[k] % |table|` of the state's
    branch table: every draw names a row, and every row can be drawn, including
    rows of probability 0, so the walks here include all of the program's. */
module Chains {
  import opened Basics
  import opened Text
  import opened States

  /** The absolute tolerance `np.random.choice` allows on the sum of the
      probabilities: the square root of the double-precision epsilon, 2^-26. */
  const ChoiceTolerance: real := 1.0 / 67108864.0

  function ProbabilitySum(table: seq<Branch>): real
  {
    if table == [] then 0.0 else ProbabilitySum(table[..|table| - 1]) + table[|table| - 1].probability
  }

  /** What `np.random.choice` accepts as `p`: no negative entry, sum within tolerance of 1. */
  predicate ChoiceAccepts(table: seq<Branch>)
  {
    && (forall k :: 0 <= k < |table| ==> table[k].probability >= 0.0)
    && -ChoiceTolerance <= ProbabilitySum(table) - 1.0 <= ChoiceTolerance
  }

  /** The branch row the draw `pick` selects. */
  function Drawn(table: seq<Branch>, pick: nat): Branch
    requires |table| > 0
  {
    table[pick % |table|]
  }

  /** Lines 51-60: the state a non-fission branch leads to. Alpha is tested
      before gamma; a label with neither leaves the state as it is. */
  function Successor(db: Database, s: State, b: Branch): (r: Result<State>)
    requires b.excitation.Some?
    ensures var e := Trunc(b.excitation.value);
      && (Contains(b.decay, "alpha") && r.Ok? ==>
            r.value.A == s.A - 4 && r.value.Z == s.Z - 2 && r.value.E == e && Realized(db, r.value))
      && (!Contains(b.decay, "alpha") && Contains(b.decay, "gamma") && r.Ok? ==>
            r.value.A == s.A && r.value.Z == s.Z && r.value.E == e && Realized(db, r.value))
      && (!Contains(b.decay, "alpha") && !Contains(b.decay, "gamma") ==> r == Ok(s))
    ensures r.Err? <==>
      (Contains(b.decay, "alpha") || Contains(b.decay, "gamma")) &&
      var (a, z) := if Contains(b.decay, "alpha") then (s.A - 4, s.Z - 2) else (s.A, s.Z);
      forall i :: 0 <= i < |db| ==> db[i].0 != Key(a, z, Trunc(b.excitation.value))
    ensures r.Err? ==> r.error == KeyError
  {
    var e := Trunc(b.excitation.value);
    if Contains(b.decay, "alpha") then NewState(db, s.A - 4, s.Z - 2, e)
    else if Contains(b.decay, "gamma") then NewState(db, s.A, s.Z, e)
    else Ok(s)
  }

  /** An element of the `chain` list: `[state, label]` once a branch has been
      drawn for the state, or the bare State (the last element when the walk
      reached a stable state). */
  datatype Link = Pair(state: State, decay: string) | Bare(state: State)

  /** What `generate_random_chain` returns, plus the number of draws it used. */
  datatype Walk = Walk(chain: seq<Link>, energies: seq<Option<int>>, used: nat)

  /** Prefixes an already-walked part to the rest of a walk. */
  function Extend(links: seq<Link>, energies: seq<Option<int>>, used: nat, rest: Result<Walk>): Result<Walk>
  {
    match rest
    case Err(e) => Err(e)
    case Ok(w) => Ok(Walk(links + w.chain, energies + w.energies, used + w.used))
  }

  /** What one iteration of the loop does with a radioactive state: fail,
      end at a fission branch with its label, or move along the branch with
      its label and decay energy to the next state. */
  datatype Move = Fail(error: Error) | Fission(decay: string) | Advance(decay: string, energy: int, next: State)

  /** Lines 40-60: one iteration of the loop for the radioactive state `s`,
      drawing with `picks[0]`. */
  function MoveFrom(db: Database, s: State, picks: seq<nat>): (m: Move)
    ensures !m.Fail? ==> picks != []
  {
    if s.branches.None? then Fail(AttributeError)
    else if picks == [] then Fail(Exhausted)
    else
      var table := s.branches.value;
      if |table| == 0 || !ChoiceAccepts(table) then Fail(ValueError)
      else
        var b := Drawn(table, picks[0]);
        if Contains(b.decay, "sf") then Fission(b.decay)
        else if b.excitation.None? || b.energy.None? then Fail(ValueError)
        else
          match Successor(db, s, b)
          case Err(e) => Fail(e)
          case Ok(next) => Advance(b.decay, Trunc(b.energy.value), next)
  }

  /** The walk from `s` with the draws `picks`, one loop iteration per call. */
  function WalkFrom(db: Database, s: State, picks: seq<nat>): Result<Walk>
    decreases |picks|
  {
    if s.halfLife.None? then Ok(Walk([Bare(s)], [], 0))
    else
      match MoveFrom(db, s, picks)
      case Fail(e) => Err(e)
      case Fission(decay) => Ok(Walk([Pair(s, decay)], [None], 1))
      case Advance(decay, energy, next) =>
        Extend([Pair(s, decay)], [Some(energy)], 1, WalkFrom(db, next, picks[1..]))
  }

  lemma ExtendExtend(l1: seq<Link>, e1: seq<Option<int>>, u1: nat,
                     l2: seq<Link>, e2: seq<Option<int>>, u2: nat, r: Result<Walk>)
    ensures Extend(l1, e1, u1, Extend(l2, e2, u2, r)) == Extend(l1 + l2, e1 + e2, u1 + u2, r)
  {
    if r.Ok? {
      assert l1 + (l2 + r.value.chain) == l1 + l2 + r.value.chain;
      assert e1 + (e2 + r.value.energies) == e1 + e2 + r.value.energies;
    }
  }

  lemma ExtendNothing(r: Result<Walk>)
    ensures Extend([], [], 0, r) == r
  {
    if r.Ok? {
      assert [] + r.value.chain == r.value.chain;
      assert [] + r.value.energies == r.value.energies;
    }
  }

  /** `Chain.generate_random_chain`: the while loop over the state graph. */
  method GenerateRandomChain(db: Database, initialState: State, picks: seq<nat>) returns (r: Result<Walk>)
    ensures r == WalkFrom(db, initialState, picks)
  {
    var chain := [Bare(initialState)];
    var decayEnergies: seq<Option<int>> := [];
    var state := initialState;
    var k := 0;
    assert picks[k..] == picks;
    ExtendNothing(WalkFrom(db, state, picks));
    while state.halfLife.Some?
      invariant k <= |picks|
      invariant |chain| >= 1 && chain[|chain| - 1] == Bare(state)
      invariant WalkFrom(db, initialState, picks)
             == Extend(chain[..|chain| - 1], decayEnergies, k, WalkFrom(db, state, picks[k..]))
      decreases |picks| - k
    {
      var move := MoveFrom(db, state, picks[k..]);
      if move.Fail? {
        return Err(move.error);
      }
      ghost var before, energiesBefore, kBefore := chain[..|chain| - 1], decayEnergies, k;
      // the bare state becomes [state, label]
      chain := chain[..|chain| - 1] + [Pair(state, move.decay)];
      k := k + 1;
      if move.Fission? {
        decayEnergies := decayEnergies + [None];
        break;
      }
      decayEnergies := decayEnergies + [Some(move.energy)];
      assert picks[kBefore..][1..] == picks[k..];
      ExtendExtend(before, energiesBefore, kBefore, [Pair(state, move.decay)], [Some(move.energy)], 1,
                   WalkFrom(db, move.next, picks[k..]));
      state := move.next;
      chain := chain + [Bare(state)];
    }
    if state.halfLife.None? {
      assert chain[..|chain| - 1] + [Bare(state)] == chain;
      assert decayEnergies + [] == decayEnergies;
    }
    r := Ok(Walk(chain, decayEnergies, k));
  }

  /** One iteration of the loop, read off `WalkFrom`: a radioactive state
      with an accepted table draws a branch; a fission label ends the walk,
      any other label leads to the successor and the walk goes on from there. */
  lemma WalkCons(db: Database, s: State, picks: seq<nat>)
    requires WalkFrom(db, s, picks).Ok? && s.halfLife.Some?
    ensures s.branches.Some? && picks != []
    ensures |s.branches.value| > 0 && ChoiceAccepts(s.branches.value)
    ensures var b := Drawn(s.branches.value, picks[0]);
      Contains(b.decay, "sf") ==> WalkFrom(db, s, picks).value == Walk([Pair(s, b.decay)], [None], 1)
    ensures var b := Drawn(s.branches.value, picks[0]);
      !Contains(b.decay, "sf") ==>
        && b.excitation.Some? && b.energy.Some? && Successor(db, s, b).Ok?
        && var rest := WalkFrom(db, Successor(db, s, b).value, picks[1..]);
        && rest.Ok?
        && WalkFrom(db, s, picks).value
           == Walk([Pair(s, b.decay)] + rest.value.chain, [Some(Trunc(b.energy.value))] + rest.value.energies,
                   1 + rest.value.used)
  {
  }

  /** The walk that ends at its start, for a stable state. */
  lemma WalkStable(db: Database, s: State, picks: seq<nat>)
    requires s.halfLife.None?
    ensures WalkFrom(db, s, picks) == Ok(Walk([Bare(s)], [], 0))
  {
  }

  /** The shape every finished walk has: pairs up to the last element; either a
      bare stable state at the end and one energy per pair, or a final `sf`
      pair whose energy is `None`; and one draw used per pair. */
  predicate WellShaped(w: Walk)
  {
    && |w.chain| >= 1
    && (forall i :: 0 <= i < |w.chain| - 1 ==> w.chain[i].Pair?)
    && w.used == |w.energies|
    && match w.chain[|w.chain| - 1]
       case Bare(t) =>
         && t.halfLife.None?
         && |w.energies| == |w.chain| - 1
         && (forall i :: 0 <= i < |w.energies| ==> w.energies[i].Some?)
       case Pair(_, d) =>
         && Contains(d, "sf")
         && |w.energies| == |w.chain|
         && (forall i :: 0 <= i < |w.energies| - 1 ==> w.energies[i].Some?)
         && w.energies[|w.energies| - 1] == None
  }

  /** A pair with an energy in front of a well-shaped walk keeps it well shaped. */
  lemma ShapeCons(link: Link, e: int, w: Walk)
    requires link.Pair? && WellShaped(w)
    ensures WellShaped(Walk([link] + w.chain, [Some(e)] + w.energies, 1 + w.used))
  {
    var w' := Walk([link] + w.chain, [Some(e)] + w.energies, 1 + w.used);
    assert w'.chain[|w'.chain| - 1] == w.chain[|w.chain| - 1];
    forall i | 0 <= i < |w'.chain| - 1 ensures w'.chain[i].Pair? {
      if i > 0 {
        assert w'.chain[i] == w.chain[i - 1];
      }
    }
    forall i | 0 < i < |w'.energies| ensures w'.energies[i] == w.energies[i - 1] {
    }
  }

  /** A finished walk ends at a stable state or at a fission branch, has one
      decay energy per `[state, label]` pair (None for fission), and has used
      no more draws than were supplied. */
  lemma {:induction false} WalkShape(db: Database, s: State, picks: seq<nat>)
    requires WalkFrom(db, s, picks).Ok?
    ensures WellShaped(WalkFrom(db, s, picks).value)
    ensures WalkFrom(db, s, picks).value.used <= |picks|
    decreases |picks|
  {
    if s.halfLife.None? {
      WalkStable(db, s, picks);
    } else {
      WalkCons(db, s, picks);
      var b := Drawn(s.branches.value, picks[0]);
      if !Contains(b.decay, "sf") {
        var next := Successor(db, s, b).value;
        WalkShape(db, next, picks[1..]);
        ShapeCons(Pair(s, b.decay), Trunc(b.energy.value), WalkFrom(db, next, picks[1..]).value);
      }
    }
  }

  /** Link `link` and the state after it are one loop iteration apart: the
      draw `pick` selected a branch of the state's (accepted) table carrying
      the link's label, the label is not fission, and the branch leads to `next`. */
  predicate StepFollows(db: Database, link: Link, next: State, pick: nat)
  {
    && link.Pair?
    && link.state.halfLife.Some? && link.state.branches.Some?
    && |link.state.branches.value| > 0 && ChoiceAccepts(link.state.branches.value)
    && var b := Drawn(link.state.branches.value, pick);
    && b.decay == link.decay && !Contains(b.decay, "sf")
    && b.excitation.Some? && b.energy.Some?
    && Successor(db, link.state, b) == Ok(next)
  }

  /** Link `link` is followed by state `next` under draw `pick`, and `energy`
      is the decay energy of the drawn branch. */
  predicate LinkStep(db: Database, link: Link, next: State, pick: nat, energy: Option<int>)
  {
    StepFollows(db, link, next, pick)
    && energy == Some(Trunc(Drawn(link.state.branches.value, pick).energy.value))
  }

  /** Every element of `links` but the last is followed by the next under the
      draw at its position, with the drawn branch's energy at its position. */
  predicate StepsFrom(db: Database, links: seq<Link>, energies: seq<Option<int>>, picks: seq<nat>)
    decreases |links|
  {
    |links| <= 1 ||
    (&& |picks| >= 1 && |energies| >= 1
     && LinkStep(db, links[0], links[1].state, picks[0], energies[0])
     && StepsFrom(db, links[1..], energies[1..], picks[1..]))
  }

  /** Step `i` of a walk whose steps follow. */
  lemma {:induction false} StepsAt(db: Database, links: seq<Link>, energies: seq<Option<int>>, picks: seq<nat>, i: nat)
    requires StepsFrom(db, links, energies, picks) && i < |links| - 1
    ensures i < |picks| && i < |energies|
    ensures LinkStep(db, links[i], links[i + 1].state, picks[i], energies[i])
    decreases i
  {
    if i > 0 {
      StepsAt(db, links[1..], energies[1..], picks[1..], i - 1);
    }
  }

  /** Consecutive elements of a walk are one loop iteration apart, each with
      its own draw and the drawn branch's decay energy; the walk starts at `s`. */
  lemma {:induction false} WalkSteps(db: Database, s: State, picks: seq<nat>)
    requires WalkFrom(db, s, picks).Ok?
    ensures var w := WalkFrom(db, s, picks).value;
      |w.chain| >= 1 && w.chain[0].state == s && StepsFrom(db, w.chain, w.energies, picks)
    decreases |picks|
  {
    if s.halfLife.None? {
      WalkStable(db, s, picks);
    } else {
      WalkCons(db, s, picks);
      var b := Drawn(s.branches.value, picks[0]);
      if !Contains(b.decay, "sf") {
        var next := Successor(db, s, b).value;
        WalkSteps(db, next, picks[1..]);
        var w := WalkFrom(db, s, picks).value;
        var rest := WalkFrom(db, next, picks[1..]).value;
        assert w.chain[1..] == rest.chain && w.energies[1..] == rest.energies;
        assert LinkStep(db, w.chain[0], w.chain[1].state, picks[0], w.energies[0]);
      }
    }
  }

  /** A walk that ends at a fission pair took that label from the row drawn
      by the draw at the pair's own position, in an accepted table of a
      radioactive state. */
  predicate FinalDraw(w: Walk, picks: seq<nat>)
  {
    |w.chain| >= 1 &&
    var last := w.chain[|w.chain| - 1];
    last.Pair? ==>
      && |w.chain| <= |picks|
      && last.state.halfLife.Some? && last.state.branches.Some? && |last.state.branches.value| > 0
      && ChoiceAccepts(last.state.branches.value)
      && last.decay == Drawn(last.state.branches.value, picks[|w.chain| - 1]).decay
  }

  /** A pair in front shifts the last element and its draw by one. */
  lemma FinalDrawCons(link: Link, e: Option<int>, w: Walk, pick: nat, picks: seq<nat>)
    requires FinalDraw(w, picks)
    ensures FinalDraw(Walk([link] + w.chain, [e] + w.energies, 1 + w.used), [pick] + picks)
  {
    var w' := Walk([link] + w.chain, [e] + w.energies, 1 + w.used);
    assert w'.chain[|w'.chain| - 1] == w.chain[|w.chain| - 1];
    if w.chain[|w.chain| - 1].Pair? {
      assert ([pick] + picks)[|w'.chain| - 1] == picks[|w.chain| - 1];
    }
  }

  /** A walk that ends at a fission branch took that label from the row the
      last used draw selected, in an accepted table of a radioactive state. */
  lemma {:induction false} WalkFinalDraw(db: Database, s: State, picks: seq<nat>)
    requires WalkFrom(db, s, picks).Ok?
    ensures FinalDraw(WalkFrom(db, s, picks).value, picks)
    decreases |picks|
  {
    if s.halfLife.None? {
      WalkStable(db, s, picks);
    } else {
      WalkCons(db, s, picks);
      var b := Drawn(s.branches.value, picks[0]);
      if !Contains(b.decay, "sf") {
        var next := Successor(db, s, b).value;
        WalkFinalDraw(db, next, picks[1..]);
        FinalDrawCons(Pair(s, b.decay), Some(Trunc(b.energy.value)), WalkFrom(db, next, picks[1..]).value,
                      picks[0], picks[1..]);
        assert [picks[0]] + picks[1..] == picks;
      }
    }
  }

  lemma SuccessorRealized(db: Database, s: State, b: Branch)
    requires Realized(db, s) && b.excitation.Some? && Successor(db, s, b).Ok?
    ensures Realized(db, Successor(db, s, b).value)
  {
  }

  /** Every state on the walk is one the database realizes, when the first is. */
  lemma {:induction false} WalkRealized(db: Database, s: State, picks: seq<nat>)
    requires Realized(db, s) && WalkFrom(db, s, picks).Ok?
    ensures var w := WalkFrom(db, s, picks).value;
      forall i :: 0 <= i < |w.chain| ==> Realized(db, w.chain[i].state)
    decreases |picks|
  {
    if s.halfLife.None? {
      WalkStable(db, s, picks);
    } else {
      WalkCons(db, s, picks);
      var b := Drawn(s.branches.value, picks[0]);
      if !Contains(b.decay, "sf") {
        var next := Successor(db, s, b).value;
        SuccessorRealized(db, s, b);
        WalkRealized(db, next, picks[1..]);
        var rest := WalkFrom(db, next, picks[1..]).value;
        ConsStates(Pair(s, b.decay), rest.chain, t => Realized(db, t));
      }
    }
  }

  /** A property of every state of `links` that also holds of `link`'s state
      holds of every state of `[link] + links`. */
  lemma ConsStates(link: Link, links: seq<Link>, P: State -> bool)
    requires P(link.state) && forall i :: 0 <= i < |links| ==> P(links[i].state)
    ensures forall i :: 0 <= i < |[link] + links| ==> P(([link] + links)[i].state)
  {
    forall i | 1 <= i < |[link] + links| ensures P(([link] + links)[i].state) {
      assert ([link] + links)[i] == links[i - 1];
    }
  }

  /** In a database whose half-lives are positive, every half-life met on a
      walk from a realized state is positive. */
  lemma WalkHalfLivesPositive(db: Database, s: State, picks: seq<nat>)
    requires PositiveHalfLives(db) && Realized(db, s) && WalkFrom(db, s, picks).Ok?
    ensures var w := WalkFrom(db, s, picks).value;
      forall i :: 0 <= i < |w.chain| ==> PositiveHalfLife(w.chain[i].state.halfLife)
  {
    var w := WalkFrom(db, s, picks).value;
    WalkRealized(db, s, picks);
    forall i | 0 <= i < |w.chain|
      ensures PositiveHalfLife(w.chain[i].state.halfLife)
    {
      if w.chain[i].state.halfLife.Some? {
        RealizedHalfLifePositive(db, w.chain[i].state);
      }
    }
  }

  /** The walk reads only the draws it uses: more draws change nothing. */
  lemma {:induction false} WalkIgnoresUnusedDraws(db: Database, s: State, picks: seq<nat>, more: seq<nat>)
    requires WalkFrom(db, s, picks).Ok?
    ensures WalkFrom(db, s, picks + more) == WalkFrom(db, s, picks)
    decreases |picks|
  {
    if s.halfLife.Some? {
      assert (picks + more)[0] == picks[0];
      var b := Drawn(s.branches.value, picks[0]);
      if !Contains(b.decay, "sf") {
        var next := Successor(db, s, b).value;
        assert (picks + more)[1..] == picks[1..] + more;
        WalkIgnoresUnusedDraws(db, next, picks[1..], more);
      }
    }
  }

  /** What `Chain.__init__` keeps: the states, the decay energies and the id string. */
  datatype ChainObj = ChainObj(chain: seq<State>, decayEnergies: seq<Option<int>>, id: string)

  /** One element's share of the chain id: `state.id + ' ==(label)==> '` for a
      pair; for a bare state (only in the corrected construction) just its id. */
  function LinkText(l: Link): string
  {
    match l
    case Pair(s, d) => s.id + " " + Arrow(d) + " "
    case Bare(s) => s.id
  }

  function ChainText(links: seq<Link>): string
  {
    if links == [] then "" else LinkText(links[0]) + ChainText(links[1..])
  }

  function StatesOf(links: seq<Link>): (states: seq<State>)
    ensures |states| == |links| && forall i :: 0 <= i < |links| ==> states[i] == links[i].state
  {
    seq(|links|, i requires 0 <= i < |links| => links[i].state)
  }

  /** `Chain.__init__` as written: both comprehensions subscript every element
      with `[0]`, which raises TypeError on a bare State, so only a walk ending
      in a fission pair gives a chain object. */
  function MakeChain(w: Walk): (r: Result<ChainObj>)
    ensures r.Err? <==> exists i :: 0 <= i < |w.chain| && w.chain[i].Bare?
    ensures r.Err? ==> r.error == TypeError
    ensures r.Ok? ==> r.value == MakeChainCorrected(w)
  {
    if exists i :: 0 <= i < |w.chain| && w.chain[i].Bare? then Err(TypeError)
    else Ok(ChainObj(StatesOf(w.chain), w.energies, ChainText(w.chain)))
  }

  /** `Chain.__init__` as evidently intended: a final stable state joins the
      chain and closes the id with its own key. */
  function MakeChainCorrected(w: Walk): (c: ChainObj)
    ensures |c.chain| == |w.chain| && c.decayEnergies == w.energies
  {
    ChainObj(StatesOf(w.chain), w.energies, ChainText(w.chain))
  }

  /** On a well-shaped walk the as-written chain fails exactly when the last
      element is a bare state. */
  lemma MakeChainFailsIffBare(w: Walk)
    requires WellShaped(w)
    ensures MakeChain(w).Err? <==> w.chain[|w.chain| - 1].Bare?
  {
    if w.chain[|w.chain| - 1].Pair? {
      assert forall i :: 0 <= i < |w.chain| ==> w.chain[i].Pair?;
    }
  }

  /** For a walk from the model, `Chain(initial_state)` fails exactly when the
      walk reached a stable state, and then with TypeError. */
  lemma ChainFailsIffStable(db: Database, s: State, picks: seq<nat>)
    requires WalkFrom(db, s, picks).Ok?
    ensures var w := WalkFrom(db, s, picks).value;
      && (MakeChain(w).Err? <==> w.chain[|w.chain| - 1].state.halfLife.None?)
      && (MakeChain(w).Err? ==> MakeChain(w).error == TypeError)
  {
    var w := WalkFrom(db, s, picks).value;
    WalkShape(db, s, picks);
    MakeChainFailsIffBare(w);
    if w.chain[|w.chain| - 1].Pair? {
      WalkFinalDraw(db, s, picks);
    }
  }

  /** A one-record database holding a stable state: the walk from it is that
      bare state, and building the chain raises TypeError, whatever the draws. */
  lemma StableStartRaises(picks: seq<nat>)
    ensures var db: Database := [(Key(206, 82, 0), Entry(None, "Pb-206", []))];
      && NewState(db, 206, 82, 0).Ok?
      && var s := NewState(db, 206, 82, 0).value;
      && WalkFrom(db, s, picks) == Ok(Walk([Bare(s)], [], 0))
      && MakeChain(WalkFrom(db, s, picks).value) == Err(TypeError)
  {
    var db: Database := [(Key(206, 82, 0), Entry(None, "Pb-206", []))];
    var s := NewState(db, 206, 82, 0).value;
    assert Walk([Bare(s)], [], 0).chain[0].Bare?;
  }

  /** `[x for x in id.split() if not '=' in x]`: the column names. */
  function ColumnNames(ws: seq<string>): (cols: seq<string>)
    ensures |cols| <= |ws|
    ensures forall k :: 0 <= k < |cols| ==> '=' !in cols[k]
  {
    if ws == [] then []
    else if '=' in ws[0] then ColumnNames(ws[1..])
    else [ws[0]] + ColumnNames(ws[1..])
  }

  /** A state id that splits as one word and never reads as an arrow. */
  predicate IdShaped(s: State)
  {
    s.id != [] && NoSpace(s.id) && '=' !in s.id
  }

  lemma RealizedIdShaped(db: Database, s: State)
    requires Realized(db, s)
    ensures IdShaped(s)
  {
    KeyCharacters(s.A, s.Z, s.E);
  }

  lemma ColumnNamesPrefix(w: string, ws: seq<string>)
    ensures ColumnNames([w] + ws) == (if '=' in w then [] else [w]) + ColumnNames(ws)
  {
    assert ([w] + ws)[1..] == ws;
  }

  /** The arrow word `==(label)==>` of a pair. */
  function Arrow(d: string): (a: string)
    ensures |a| > 0 && a[0] == '='
  {
    "==(" + d + ")==>"
  }

  lemma ArrowNoSpace(d: string)
    requires NoSpace(d)
    ensures NoSpace(Arrow(d))
  {
    var a := Arrow(d);
    forall k | 0 <= k < |a| ensures !IsSpace(a[k]) {
      if 3 <= k < 3 + |d| {
        assert a[k] == d[k - 3];
      } else if k < 3 {
        assert a[k] == "==("[k];
      } else {
        assert a[k] == ")==>"[k - 3 - |d|];
      }
    }
  }

  lemma PairTextSplit(s: State, d: string, rest: string)
    ensures LinkText(Pair(s, d)) + rest == s.id + ([' '] + (Arrow(d) + ([' '] + rest)))
  {
    assert LinkText(Pair(s, d)) == s.id + [' '] + Arrow(d) + [' '];
  }

  /** A pair's text splits into the state id and one arrow word. */
  lemma WordsOfPair(s: State, d: string, rest: string)
    requires IdShaped(s) && NoSpace(d)
    ensures Words(LinkText(Pair(s, d)) + rest) == [s.id, Arrow(d)] + Words(rest)
  {
    ArrowNoSpace(d);
    PairTextSplit(s, d, rest);
    WordThenSpace(Arrow(d), rest);
    WordThenSpace(s.id, Arrow(d) + ([' '] + rest));
  }

  /** Every element's id splits as one word that is not an arrow, every
      label is space-free, and only the last element may be bare. */
  predicate TextShaped(links: seq<Link>)
    decreases |links|
  {
    links == [] ||
    (&& IdShaped(links[0].state)
     && (links[0].Pair? ==> NoSpace(links[0].decay))
     && (links[0].Bare? ==> |links| == 1)
     && TextShaped(links[1..]))
  }

  lemma {:induction false} TextShapedOf(links: seq<Link>)
    requires forall i :: 0 <= i < |links| ==> IdShaped(links[i].state)
    requires forall i :: 0 <= i < |links| ==> links[i].Pair? ==> NoSpace(links[i].decay)
    requires forall i :: 0 <= i < |links| - 1 ==> links[i].Pair?
    ensures TextShaped(links)
    decreases |links|
  {
    if links != [] {
      var rest := links[1..];
      forall i | 0 <= i < |rest| ensures rest[i] == links[i + 1] {
      }
      TextShapedOf(rest);
    }
  }

  /** Splitting the chain id on whitespace and dropping the arrow words gives
      exactly the state ids, one per element, when the labels hold no spaces. */
  lemma {:induction false} ColumnsOfChainText(links: seq<Link>)
    requires TextShaped(links)
    ensures ColumnNames(Words(ChainText(links))) == StatesIds(links)
    decreases |links|
  {
    if links != [] {
      ColumnsOfChainText(links[1..]);
      ColumnsOfLink(links);
      assert StatesIds(links) == [links[0].state.id] + StatesIds(links[1..]);
    }
  }

  /** The first element contributes its id, and its arrow nothing. */
  lemma ColumnsOfLink(links: seq<Link>)
    requires links != [] && TextShaped(links)
    ensures ColumnNames(Words(ChainText(links)))
         == [links[0].state.id] + ColumnNames(Words(ChainText(links[1..])))
  {
    var rest := links[1..];
    assert ChainText(links) == LinkText(links[0]) + ChainText(rest);
    if links[0].Pair? {
      ColumnsOfPair(links[0].state, links[0].decay, ChainText(rest));
    } else {
      assert rest == [];
      ColumnsOfBare(links[0].state);
    }
  }

  lemma ColumnsOfPair(s: State, d: string, rest: string)
    requires IdShaped(s) && NoSpace(d)
    ensures ColumnNames(Words(LinkText(Pair(s, d)) + rest)) == [s.id] + ColumnNames(Words(rest))
  {
    WordsOfPair(s, d, rest);
    ColumnsDropArrow(s.id, Arrow(d), Words(rest));
  }

  /** An id word is kept and the arrow word after it dropped. */
  lemma ColumnsDropArrow(id: string, arrow: string, ws: seq<string>)
    requires '=' !in id && |arrow| > 0 && arrow[0] == '='
    ensures ColumnNames([id, arrow] + ws) == [id] + ColumnNames(ws)
  {
    assert [id, arrow] + ws == [id] + ([arrow] + ws);
    ColumnNamesPrefix(arrow, ws);
    ColumnNamesPrefix(id, [arrow] + ws);
  }

  lemma ColumnsOfBare(s: State)
    requires IdShaped(s)
    ensures ColumnNames(Words(LinkText(Bare(s)) + ChainText([]))) == [s.id]
  {
    assert LinkText(Bare(s)) + ChainText([]) == s.id + [];
    WordsOfWord(s.id, []);
    ColumnNamesPrefix(s.id, []);
  }

  function StatesIds(links: seq<Link>): (ids: seq<string>)
    ensures |ids| == |links| && forall i :: 0 <= i < |links| ==> ids[i] == links[i].state.id
  {
    seq(|links|, i requires 0 <= i < |links| => links[i].state.id)
  }

  /** No branch label of the database holds whitespace. */
  predicate SpaceFreeLabels(db: Database)
  {
    forall i, k :: 0 <= i < |db| && 0 <= k < |db[i].1.branches| ==> NoSpace(db[i].1.branches[k].decay)
  }

  lemma DrawnLabelSpaceFree(db: Database, t: State, pick: nat)
    requires SpaceFreeLabels(db) && Realized(db, t)
    requires t.branches.Some? && |t.branches.value| > 0
    ensures NoSpace(Drawn(t.branches.value, pick).decay)
  {
    FindIn(db, t.id);
    var k :| 0 <= k < |db| && db[k] == (t.id, Find(db, t.id).value);
    assert db[k].1.branches[pick % |t.branches.value|] == Drawn(t.branches.value, pick);
  }

  /** With a space-free database, every label on a walk from a realized state
      is space-free, and every state id splits as one word. */
  lemma WalkTextShaped(db: Database, s: State, picks: seq<nat>)
    requires SpaceFreeLabels(db) && Realized(db, s) && WalkFrom(db, s, picks).Ok?
    ensures var w := WalkFrom(db, s, picks).value;
      && (forall i :: 0 <= i < |w.chain| ==> IdShaped(w.chain[i].state))
      && (forall i :: 0 <= i < |w.chain| ==> w.chain[i].Pair? ==> NoSpace(w.chain[i].decay))
  {
    var w := WalkFrom(db, s, picks).value;
    WalkShape(db, s, picks);
    WalkSteps(db, s, picks);
    WalkRealized(db, s, picks);
    forall i | 0 <= i < |w.chain|
      ensures IdShaped(w.chain[i].state)
      ensures w.chain[i].Pair? ==> NoSpace(w.chain[i].decay)
    {
      var t := w.chain[i].state;
      RealizedIdShaped(db, t);
      if i < |w.chain| - 1 {
        StepsAt(db, w.chain, w.energies, picks, i);
        DrawnLabelSpaceFree(db, t, picks[i]);
      } else if w.chain[i].Pair? {
        WalkFinalDraw(db, s, picks);
        DrawnLabelSpaceFree(db, t, picks[i]);
      }
    }
  }

  /** The corrected chain names one column per state, the state ids in chain
      order; the as-written chain, when it exists, names the same columns. */
  lemma ChainColumns(db: Database, s: State, picks: seq<nat>)
    requires SpaceFreeLabels(db) && Realized(db, s) && WalkFrom(db, s, picks).Ok?
    ensures var c := MakeChainCorrected(WalkFrom(db, s, picks).value);
      && |ColumnNames(Words(c.id))| == |c.chain|
      && forall i :: 0 <= i < |c.chain| ==> ColumnNames(Words(c.id))[i] == c.chain[i].id
  {
    WalkShape(db, s, picks);
    WalkTextShaped(db, s, picks);
    TextShapedOf(WalkFrom(db, s, picks).value.chain);
    ColumnsOfChainText(WalkFrom(db, s, picks).value.chain);
  }
}
