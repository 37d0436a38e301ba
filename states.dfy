/** Nuclide states and the read-only database they are looked up in
    (`_simulations/state.py`). */
module States {
  import opened Basics
  import opened Text

  /** One row of a state's branch table: `label: [probability, energy, excitation]`.
      The two energies are `None` where the table holds no number (NaN once in pandas). */
  datatype Branch = Branch(decay: string, probability: real, energy: Option<real>, excitation: Option<real>)

  /** One database record. */
  datatype Entry = Entry(halfLife: Option<real>, name: string, branches: seq<Branch>)

  predicate DistinctKeys(entries: seq<(string, Entry)>)
  {
    forall i, j :: 0 <= i < j < |entries| ==> entries[i].0 != entries[j].0
  }

  /** The database: a Python dict, i.e. keys in insertion order, each key once. */
  type Database = d: seq<(string, Entry)> | DistinctKeys(d) witness []

  /** The record filed under `key`, if any (`DATABASE[key]`). */
  function Find(entries: seq<(string, Entry)>, key: string): (r: Option<Entry>)
    ensures r.None? <==> forall i :: 0 <= i < |entries| ==> entries[i].0 != key
  {
    if entries == [] then None
    else if entries[0].0 == key then Some(entries[0].1)
    else Find(entries[1..], key)
  }

  /** In a dict, looking up the i-th key gives the i-th record. */
  lemma {:induction false} FindAt(db: Database, i: nat)
    requires i < |db|
    ensures Find(db, db[i].0) == Some(db[i].1)
  {
    if i > 0 {
      assert db[0].0 != db[i].0;
      var rest: Database := db[1..];
      FindAt(rest, i - 1);
    }
  }

  /** A record found under `key` is filed under `key` somewhere in the list. */
  lemma {:induction false} FindIn(entries: seq<(string, Entry)>, key: string)
    requires Find(entries, key).Some?
    ensures exists k :: 0 <= k < |entries| && entries[k] == (key, Find(entries, key).value)
  {
    if entries[0].0 != key {
      FindIn(entries[1..], key);
      var k :| 0 <= k < |entries[1..]| && entries[1..][k] == (key, Find(entries[1..], key).value);
      assert entries[k + 1] == entries[1..][k];
    }
  }

  /** The database key `f'{A}.{Z}.{E}'`. */
  function Key(a: int, z: int, e: int): string
  {
    IntToString(a) + "." + IntToString(z) + "." + IntToString(e)
  }

  lemma NoDotInNumeral(n: int)
    ensures '.' !in IntToString(n)
  {
    var s := IntToString(n);
    assert forall i :: 0 <= i < |s| ==> s[i] != '.';
  }

  /** Distinct triples give distinct keys, so a key identifies one state. */
  lemma KeyInjective(a: int, z: int, e: int, a': int, z': int, e': int)
    ensures Key(a, z, e) == Key(a', z', e') <==> a == a' && z == z' && e == e'
  {
    if Key(a, z, e) == Key(a', z', e') {
      var sa, sz, se := IntToString(a), IntToString(z), IntToString(e);
      var ta, tz, te := IntToString(a'), IntToString(z'), IntToString(e');
      assert Key(a, z, e) == sa + ['.'] + (sz + ['.'] + se);
      assert Key(a', z', e') == ta + ['.'] + (tz + ['.'] + te);
      NoDotInNumeral(a);
      NoDotInNumeral(a');
      NoDotInNumeral(z);
      NoDotInNumeral(z');
      SplitAtSeparator(sa, sz + ['.'] + se, ta, tz + ['.'] + te, '.');
      SplitAtSeparator(sz, se, tz, te, '.');
      IntToStringInjective(a, a');
      IntToStringInjective(z, z');
      IntToStringInjective(e, e');
    }
  }

  /** Keys are made of digits, '-' and '.': never whitespace, never '='. */
  lemma KeyCharacters(a: int, z: int, e: int)
    ensures Key(a, z, e) != [] && NoSpace(Key(a, z, e)) && '=' !in Key(a, z, e)
  {
    var k := Key(a, z, e);
    forall i | 0 <= i < |k| ensures IsNumeral(k[i]) || k[i] == '.' {
      var sa, sz := IntToString(a), IntToString(z);
      if i < |sa| {
        assert k[i] == sa[i];
      } else if i == |sa| || i == |sa| + 1 + |sz| {
      } else if i < |sa| + 1 + |sz| {
        assert k[i] == sz[i - |sa| - 1];
      } else {
        assert k[i] == IntToString(e)[i - |sa| - 2 - |sz|];
      }
    }
  }

  /** A realized state (the attributes `State.__init__` sets). */
  datatype State = State(
    id: string, A: int, Z: int, E: int,
    halfLife: Option<real>, name: string,
    branches: Option<seq<Branch>>)

  /** `State.find_state`: the key and its record, or `(None, None)`. */
  function FindState(db: Database, a: int, z: int, e: int): (r: (Option<string>, Option<Entry>))
    ensures r.1.None? <==> r.0.None?
    ensures r.1.None? <==> forall i :: 0 <= i < |db| ==> db[i].0 != Key(a, z, e)
    ensures r.0.Some? ==> r.0.value == Key(a, z, e)
  {
    var key := Key(a, z, e);
    match Find(db, key)
    case Some(entry) => (Some(key), Some(entry))
    case None => (None, None)
  }

  /** `State(A, Z, E)`: raises KeyError when the key is absent; a state without
      a half-life is stable and gets no branch table. */
  function NewState(db: Database, a: int, z: int, e: int := 0): (r: Result<State>)
    ensures r.Err? <==> forall i :: 0 <= i < |db| ==> db[i].0 != Key(a, z, e)
    ensures r.Err? ==> r.error == KeyError
    ensures r.Ok? ==> var s := r.value;
      && s.id == Key(a, z, e) && s.A == a && s.Z == z && s.E == e
      && Find(db, s.id).Some?
      && var entry := Find(db, s.id).value;
      && s.halfLife == entry.halfLife && s.name == entry.name
      && (s.halfLife.None? <==> s.branches.None?)
      && (s.branches.Some? ==> s.branches.value == entry.branches)
  {
    var (stateId, dbState) := FindState(db, a, z, e);
    if dbState.None? then Err(KeyError)
    else
      var entry := dbState.value;
      Ok(State(stateId.value, a, z, e, entry.halfLife, entry.name,
               if entry.halfLife.None? then None else Some(entry.branches)))
  }

  /** `s` is what the constructor yields for its own coordinates. */
  predicate Realized(db: Database, s: State)
  {
    NewState(db, s.A, s.Z, s.E) == Ok(s)
  }

  /** `get_all_states`: the keys in dict order. */
  function AllStates(db: Database): seq<string>
  {
    seq(|db|, i requires 0 <= i < |db| => db[i].0)
  }

  /** `get_true_half_lives`: each key's half-life, in the same order. */
  function TrueHalfLives(db: Database): seq<Option<real>>
  {
    seq(|db|, i requires 0 <= i < |db| => Find(db, AllStates(db)[i]).value.halfLife)
  }

  /** The two lists are index-aligned: position i of the second is the
      half-life recorded under the key at position i of the first. */
  lemma HalfLivesAligned(db: Database)
    ensures |AllStates(db)| == |TrueHalfLives(db)| == |db|
    ensures forall i :: 0 <= i < |db| ==>
      Find(db, AllStates(db)[i]) == Some(db[i].1) && TrueHalfLives(db)[i] == db[i].1.halfLife
  {
    forall i | 0 <= i < |db|
      ensures Find(db, AllStates(db)[i]) == Some(db[i].1)
    {
      FindAt(db, i);
    }
  }

  /** A half-life that is known is a positive number. */
  predicate PositiveHalfLife(h: Option<real>)
  {
    h.Some? ==> h.value > 0.0
  }

  /** The data contract of the database: every half-life is a positive number. */
  predicate PositiveHalfLives(db: Database)
  {
    forall i :: 0 <= i < |db| ==> PositiveHalfLife(db[i].1.halfLife)
  }

  lemma RealizedHalfLifePositive(db: Database, s: State)
    requires PositiveHalfLives(db) && Realized(db, s) && s.halfLife.Some?
    ensures s.halfLife.value > 0.0
  {
    var k :| 0 <= k < |db| && db[k].0 == s.id;
    FindAt(db, k);
  }
}
