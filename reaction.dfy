/**
 * The reaction record every part of the game shares (one entry of the level table, which
 * the engine and the game copy), and the map helpers for its per-species data.
 */
module Reaction {
  import opened Wrappers

  type Species = string

  /** The direction a side plays for: 'forward' pushes toward products, 'reverse' toward reactants. */
  datatype Goal = Forward | Reverse
  {
    function Opposite(): (g: Goal)
      ensures g != this
    {
      if this == Forward then Reverse else Forward
    }
  }

  /**
   * A level. Numeric fields the source may omit are options, because the code reads them
   * both with `||` (a missing value and 0 both fall back) and with `??` (only a missing
   * value falls back). Coefficients are integers; a species without one has none.
   */
  datatype Level = Level(
    id: int,
    category: string,
    reactants: seq<Species>,
    products: seq<Species>,
    coefficients: map<Species, int>,
    initialConcentrations: map<Species, real>,
    equilibriumConstant: Option<real>,
    deltaH: Option<real>,
    temperatureSensitivity: Option<real>,
    initialTemp: Option<real>,
    initialTemperature: Option<real>,
    initialPressure: Option<real>,
    hasGas: bool,
    gasSpecies: Option<seq<Species>>,
    maxRounds: Option<int>)

  /** `x || d` on a number that may be missing: both a missing value and 0 give d. */
  function OrElse(x: Option<real>, d: real): (r: real)
    ensures r == d || (x.Some? && x.value != 0.0 && r == x.value)
  {
    if x.Some? && x.value != 0.0 then x.value else d
  }

  /** `m[k] || d` on a concentration map. */
  function LookupOr(m: map<Species, real>, k: Species, d: real): real
  {
    if k in m && m[k] != 0.0 then m[k] else d
  }

  /** `level.gasSpecies` as a list, empty when absent. */
  function GasList(level: Level): seq<Species>
  {
    if level.gasSpecies.Some? then level.gasSpecies.value else []
  }

  predicate Distinct(s: seq<Species>)
  {
    forall i, j :: 0 <= i < j < |s| ==> s[i] != s[j]
  }

  /** The per-species updates the source's loops apply: `c *= f`, `c += d`, `c = max(lo, c - d)`. */
  datatype Step = Scale(factor: real) | Add(delta: real) | DecreaseTo(delta: real, floor: real)

  function Apply(st: Step, x: real): (r: real)
    ensures st.DecreaseTo? ==> st.floor <= r
  {
    match st
    case Scale(f) => x * f
    case Add(d) => x + d
    case DecreaseTo(d, lo) => if x - d < lo then lo else x - d
  }

  /**
   * The loop `for (const s of keys) m[s] = step(m[s])`, in list order, over the keys the
   * map has (a key the map lacks is skipped).
   */
  function UpdateEach(m: map<Species, real>, keys: seq<Species>, st: Step): map<Species, real>
    decreases |keys|
  {
    if keys == [] then m
    else
      var prev := UpdateEach(m, keys[..|keys| - 1], st);
      var k := keys[|keys| - 1];
      if k in prev then prev[k := Apply(st, prev[k])] else prev
  }

  lemma {:induction false} UpdateEachDomain(m: map<Species, real>, keys: seq<Species>, st: Step)
    ensures UpdateEach(m, keys, st).Keys == m.Keys
    decreases |keys|
  {
    if keys != [] { UpdateEachDomain(m, keys[..|keys| - 1], st); }
  }

  /** A key outside the list keeps its value. */
  lemma {:induction false} UpdateEachOutside(m: map<Species, real>, keys: seq<Species>, st: Step, s: Species)
    requires s in m && s !in keys
    ensures s in UpdateEach(m, keys, st) && UpdateEach(m, keys, st)[s] == m[s]
    decreases |keys|
  {
    if keys != [] {
      assert forall i :: 0 <= i < |keys| - 1 ==> keys[..|keys| - 1][i] == keys[i];
      UpdateEachOutside(m, keys[..|keys| - 1], st, s);
    }
  }

  /** With distinct keys, every listed key the map has is updated exactly once. */
  lemma {:induction false} UpdateEachInside(m: map<Species, real>, keys: seq<Species>, st: Step, s: Species)
    requires Distinct(keys) && s in m && s in keys
    ensures s in UpdateEach(m, keys, st) && UpdateEach(m, keys, st)[s] == Apply(st, m[s])
    decreases |keys|
  {
    var init := keys[..|keys| - 1];
    assert Distinct(init);
    UpdateEachDomain(m, init, st);
    if keys[|keys| - 1] == s {
      assert forall i :: 0 <= i < |init| ==> init[i] == keys[i] && keys[i] != s;
      UpdateEachOutside(m, init, st, s);
    } else {
      assert s in init by { var i :| 0 <= i < |keys| && keys[i] == s; assert i < |keys| - 1 && init[i] == s; }
      UpdateEachInside(m, init, st, s);
    }
  }
}
