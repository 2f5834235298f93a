/**
 * The level table's logic: the round-start concentrations that put a level exactly at
 * equilibrium (Q = K), and the lookups by category, by id and by position.
 */
module Levels {
  import opened Wrappers
  import opened MathFns
  import opened Reaction
  import opened Chemistry

  /** The ids of the 36 levels of the table, in table order (five categories, ids up to 90). */
  const CatalogIds: seq<int> := [1, 2, 3, 4, 5, 6, 7, 8, 9, 10, 21, 22, 23, 24, 25, 41, 42, 43, 44, 45,
                                 61, 62, 63, 64, 65, 66, 81, 82, 83, 84, 85, 86, 87, 88, 89, 90]

  lemma CatalogShape()
    ensures |CatalogIds| == 36
    ensures forall i, j :: 0 <= i < j < |CatalogIds| ==> CatalogIds[i] < CatalogIds[j]
    ensures CatalogIds[0] == 1 && CatalogIds[35] == 90 && CatalogIds[15] == 41
  {
  }

  // ------------------------------------------------------------------ Q = K start

  /** `coef[s] ?? 1`: only a missing coefficient falls back to 1 (0 stays 0). */
  function CoefOr(coefs: map<Species, int>, s: Species): int
  {
    if s in coefs then coefs[s] else 1
  }

  /** `list.reduce((acc, s) => acc + (coef[s] ?? 1), 0)`. */
  function SumPower(list: seq<Species>, coefs: map<Species, int>): int
    decreases |list|
  {
    if list == [] then 0 else SumPower(list[..|list| - 1], coefs) + CoefOr(coefs, list[|list| - 1])
  }

  /** `temperature ?? level.initialTemp ?? 298`. */
  function StartTemperature(level: Level, temperature: Option<real>): real
  {
    if temperature.Some? then temperature.value
    else if level.initialTemp.Some? then level.initialTemp.value
    else 298.0
  }

  /** The K the start aims at: calculateK's value, with the not-positive fallback to 1 never needed. */
  function TargetK(f: Fns, level: Level, temperature: Option<real>): (k: real)
    ensures k == CalculateK(f, level, StartTemperature(level, temperature))
    ensures MinK <= k <= MaxK
  {
    var raw := CalculateK(f, level, StartTemperature(level, temperature));
    if raw > 0.0 then raw else 1.0
  }

  /** `!Number.isFinite(v) || v <= 0 ? 1 : v` on a real. */
  function Positive(v: real): (r: real)
    ensures 0.0 < r
    ensures 0.0 < v ==> r == v
  {
    if v <= 0.0 then 1.0 else v
  }

  /** Every reactant at one value, then every product at another (a product listed as a reactant too ends at the product's). */
  function Filled(level: Level, reacConc: real, prodConc: real): map<Species, real>
  {
    (map s | s in level.reactants :: reacConc) + (map s | s in level.products :: prodConc)
  }

  function Sanitized(m: map<Species, real>): map<Species, real>
  {
    map s | s in m :: Positive(m[s])
  }

  /** Both coefficient sums are positive: otherwise the initial concentrations are copied. */
  predicate Balanceable(level: Level)
  {
    SumPower(level.reactants, level.coefficients) > 0 && SumPower(level.products, level.coefficients) > 0
  }

  /** a = log10 K / (P + R): products get 10^a, reactants 10^-a. */
  function Exponent(f: Fns, level: Level, temperature: Option<real>): real
    requires Balanceable(level)
  {
    var d := SumPower(level.products, level.coefficients) + SumPower(level.reactants, level.coefficients);
    f.log10(TargetK(f, level, temperature)) / d as real
  }

  lemma ExponentsAre(f: Fns, level: Level, temperature: Option<real>)
    requires Balanceable(level)
    ensures var d := SumPower(level.products, level.coefficients) + SumPower(level.reactants, level.coefficients);
      && Exponent(f, level, temperature) == f.log10(TargetK(f, level, temperature)) / d as real
      && OppositeExponent(f, level, temperature) == (-f.log10(TargetK(f, level, temperature))) / d as real
  {
  }

  /** The opposite exponent b, written as the source does: `-logK / (P + R)`. */
  function OppositeExponent(f: Fns, level: Level, temperature: Option<real>): real
    requires Balanceable(level)
  {
    var d := SumPower(level.products, level.coefficients) + SumPower(level.reactants, level.coefficients);
    (-f.log10(TargetK(f, level, temperature))) / d as real
  }

  /** `adjustInitialConcentrations(level, temperature)` as a value. */
  function Adjusted(f: Fns, level: Level, temperature: Option<real>): (m: map<Species, real>)
    ensures !Balanceable(level) ==> m == level.initialConcentrations
    ensures Balanceable(level) ==> m.Keys == level.initialConcentrations.Keys + (set s | s in level.reactants) + (set s | s in level.products)
  {
    if !Balanceable(level) then level.initialConcentrations
    else
      var filled := Filled(level, f.pow10(OppositeExponent(f, level, temperature)), f.pow10(Exponent(f, level, temperature)));
      Sanitized(level.initialConcentrations + filled)
  }

  /** The loops of `adjustInitialConcentrations`: fill reactants, then products, then the extras, then sanitise. */
  method AdjustInitialConcentrations(f: Fns, level: Level, temperature: Option<real>) returns (newConc: map<Species, real>)
    ensures newConc == Adjusted(f, level, temperature)
  {
    if !Balanceable(level) {
      return level.initialConcentrations;
    }
    var prodConc := f.pow10(Exponent(f, level, temperature));
    var reacConc := f.pow10(OppositeExponent(f, level, temperature));
    newConc := FillAll(map[], level.reactants, reacConc);
    newConc := FillAll(newConc, level.products, prodConc);
    assert newConc == Filled(level, reacConc, prodConc);
    newConc := AddMissing(newConc, level.initialConcentrations);
    newConc := SanitizeAll(newConc);
  }

  /** `for (const s of keys) m[s] = v`. */
  method FillAll(m: map<Species, real>, keys: seq<Species>, v: real) returns (r: map<Species, real>)
    ensures r == m + map s | s in keys :: v
  {
    r := m;
    for i := 0 to |keys|
      invariant r == m + map s | s in keys[..i] :: v
    {
      assert keys[..i + 1] == keys[..i] + [keys[i]];
      r := r[keys[i] := v];
    }
    assert keys[..|keys|] == keys;
  }

  /** `for (const [k, v] of Object.entries(init)) if (m[k] === undefined) m[k] = v`. */
  method AddMissing(m: map<Species, real>, init: map<Species, real>) returns (r: map<Species, real>)
    ensures r == init + m
  {
    r := m;
    var pending := init.Keys;
    while pending != {}
      invariant pending <= init.Keys
      invariant r == (map s | s in init && s !in pending :: init[s]) + m
      decreases pending
    {
      var s :| s in pending;
      if s !in r {
        r := r[s := init[s]];
      }
      pending := pending - {s};
    }
    assert (map s | s in init && s !in pending :: init[s]) == init;
  }

  /** The sanitising loop over the keys: a value that is not positive becomes 1. */
  method SanitizeAll(m: map<Species, real>) returns (r: map<Species, real>)
    ensures r == Sanitized(m)
  {
    r := m;
    var keys := m.Keys;
    while keys != {}
      invariant keys <= m.Keys
      invariant r == map s | s in m :: if s in keys then m[s] else Positive(m[s])
      decreases keys
    {
      var s :| s in keys;
      r := r[s := Positive(r[s])];
      keys := keys - {s};
    }
  }

  /** Every product gets 10^a, every reactant that is not also a product 10^b, every other species its positive value or 1. */
  lemma AdjustedValues(f: Fns, level: Level, temperature: Option<real>, s: Species)
    requires Pow10Laws(f) && Balanceable(level)
    ensures var m := Adjusted(f, level, temperature);
      && (s in level.products ==> m[s] == f.pow10(Exponent(f, level, temperature)))
      && (s in level.reactants && s !in level.products ==> m[s] == f.pow10(OppositeExponent(f, level, temperature)))
      && (s !in level.reactants && s !in level.products && s in level.initialConcentrations ==>
            m[s] == Positive(level.initialConcentrations[s]))
      && (s in m ==> 0.0 < m[s])
  {
    var a, b := Exponent(f, level, temperature), OppositeExponent(f, level, temperature);
    assert 0.0 < f.pow10(a) && 0.0 < f.pow10(b);
  }

  /** The two exponents are opposite, so a reactant's value times a product's value is 1. */
  lemma ReactantTimesProduct(f: Fns, level: Level, temperature: Option<real>)
    requires Pow10Laws(f) && Balanceable(level)
    ensures f.pow10(OppositeExponent(f, level, temperature)) * f.pow10(Exponent(f, level, temperature)) == 1.0
  {
    var d := SumPower(level.products, level.coefficients) + SumPower(level.reactants, level.coefficients);
    var lk := f.log10(TargetK(f, level, temperature));
    var a, b := Exponent(f, level, temperature), OppositeExponent(f, level, temperature);
    assert b == -a by {
      assert a * d as real == lk;
      assert b * d as real == -lk;
    }
    Pow10Opposite(f, a);
  }

  /** a·P = log10 K + b·R: the exponent identity behind Q = K. */
  lemma ExponentSplit(lk: real, p: int, r: int, a: real, b: real)
    requires p > 0 && r > 0
    requires a == lk / (p + r) as real && b == (-lk) / (p + r) as real
    ensures a * p as real == lk + b * r as real
  {
    var d := (p + r) as real;
    assert a * d == lk;
    assert b == -a by { assert b * d == -lk; assert (-a) * d == -lk; }
    assert a * p as real == a * d - a * r as real;
  }

  /** One more species on a side multiplies it by that species' term. */
  lemma SideSnoc(species: seq<Species>, conc: map<Species, real>, coefs: map<Species, int>)
    requires species != []
    ensures Side(species, conc, coefs) == Side(species[..|species| - 1], conc, coefs) * Term(conc, coefs, species[|species| - 1])
  {
    var n := |species| - 1;
    assert Terms(species[..n], conc, coefs) == Terms(species, conc, coefs)[..n];
  }

  /** A species at v > 0 with a positive coefficient c contributes v^c. */
  lemma TermAtConstant(conc: map<Species, real>, coefs: map<Species, int>, s: Species, v: real)
    requires 0.0 < v && s in conc && conc[s] == v
    requires forall t :: t in coefs ==> coefs[t] > 0
    ensures CoefOr(coefs, s) > 0 && Term(conc, coefs, s) == NatPow(v, CoefOr(coefs, s))
  {
    assert QConc(conc, s) == v;
    assert QCoef(coefs, s) == CoefOr(coefs, s);
  }

  lemma PowStep(side: real, prev: real, term: real, v: real, m: nat, c: nat)
    requires side == prev * term && prev == NatPow(v, m) && term == NatPow(v, c)
    ensures side == NatPow(v, m + c)
  {
    NatPowAdd(v, m, c, m + c);
  }

  lemma SidePowSnoc(species: seq<Species>, conc: map<Species, real>, coefs: map<Species, int>, v: real, m: nat, c: nat)
    requires species != []
    requires Side(species[..|species| - 1], conc, coefs) == NatPow(v, m)
    requires Term(conc, coefs, species[|species| - 1]) == NatPow(v, c)
    ensures Side(species, conc, coefs) == NatPow(v, m + c)
  {
    SideSnoc(species, conc, coefs);
    PowStep(Side(species, conc, coefs), Side(species[..|species| - 1], conc, coefs), Term(conc, coefs, species[|species| - 1]), v, m, c);
  }

  /** One side of Q over species that all sit at the same v > 0: v raised to the coefficient sum. */
  lemma {:induction false} SideOfConstant(species: seq<Species>, conc: map<Species, real>, coefs: map<Species, int>, v: real)
    requires 0.0 < v
    requires forall i :: 0 <= i < |species| ==> species[i] in conc && conc[species[i]] == v
    requires forall s :: s in coefs ==> coefs[s] > 0
    ensures SumPower(species, coefs) >= 0 && Side(species, conc, coefs) == NatPow(v, SumPower(species, coefs))
    decreases |species|
  {
    if species == [] {
      assert Terms(species, conc, coefs) == [];
    } else {
      var init, s := species[..|species| - 1], species[|species| - 1];
      assert forall i :: 0 <= i < |init| ==> init[i] == species[i];
      SideOfConstant(init, conc, coefs, v);
      TermAtConstant(conc, coefs, s, v);
      var m, c := SumPower(init, coefs), CoefOr(coefs, s);
      assert SumPower(species, coefs) == m + c;
      SidePowSnoc(species, conc, coefs, v, m, c);
    }
  }

  /** With u = log10 K + w and 10^log10 K = K, the ratio 10^u / 10^w is K. */
  lemma RatioOfPowers(f: Fns, k: real, u: real, w: real)
    requires Pow10Laws(f) && InverseLaws(f) && 0.0 < k
    requires u == f.log10(k) + w
    ensures f.pow10(u) / f.pow10(w) == k
  {
    var l := f.log10(k);
    Pow10Add(f, l, w, u);
    QuotientOfProduct(f.pow10(u), f.pow10(l), f.pow10(w), k);
  }

  /** n = x·d with x = k and d > 0 gives n / d = k. */
  lemma QuotientOfProduct(n: real, x: real, d: real, k: real)
    requires n == x * d && x == k && 0.0 < d
    ensures n / d == k
  {
  }

  /** With a = log10 K / (P + R) and b = -log10 K / (P + R): (10^a)^P / (10^b)^R = K. */
  lemma PowerRatio(f: Fns, k: real, a: real, b: real, p: nat, r: nat)
    requires Pow10Laws(f) && InverseLaws(f) && 0.0 < k && p > 0 && r > 0
    requires a == f.log10(k) / (p + r) as real && b == (-f.log10(k)) / (p + r) as real
    ensures NatPow(f.pow10(b), r) != 0.0 && NatPow(f.pow10(a), p) / NatPow(f.pow10(b), r) == k
  {
    NatPowSign(f.pow10(b), r);
    Pow10NatPow(f, a, p);
    Pow10NatPow(f, b, r);
    ExponentSplit(f.log10(k), p, r, a, b);
    RatioOfPowers(f, k, a * p as real, b * r as real);
  }

  /** The same for the exponents and sums of a level. */
  lemma AdjustedRatio(f: Fns, level: Level, temperature: Option<real>)
    requires Pow10Laws(f) && InverseLaws(f) && Balanceable(level)
    ensures var p, r := SumPower(level.products, level.coefficients), SumPower(level.reactants, level.coefficients);
      var u, v := f.pow10(OppositeExponent(f, level, temperature)), f.pow10(Exponent(f, level, temperature));
      NatPow(u, r) != 0.0 && NatPow(v, p) / NatPow(u, r) == TargetK(f, level, temperature)
  {
    var k := TargetK(f, level, temperature);
    var p, r := SumPower(level.products, level.coefficients), SumPower(level.reactants, level.coefficients);
    ExponentsAre(f, level, temperature);
    PowerRatio(f, k, Exponent(f, level, temperature), OppositeExponent(f, level, temperature), p, r);
  }

  /** Every product sits at 10^a and every reactant at 10^b, so each side is a power of one value. */
  lemma AdjustedSides(f: Fns, level: Level, temperature: Option<real>)
    requires Pow10Laws(f) && Balanceable(level)
    requires forall s :: s in level.reactants ==> s !in level.products
    requires forall s :: s in level.coefficients ==> level.coefficients[s] > 0
    ensures var m := Adjusted(f, level, temperature);
      && SumPower(level.products, level.coefficients) >= 0
      && SumPower(level.reactants, level.coefficients) >= 0
      && Side(level.products, m, level.coefficients)
         == NatPow(f.pow10(Exponent(f, level, temperature)), SumPower(level.products, level.coefficients))
      && Side(level.reactants, m, level.coefficients)
         == NatPow(f.pow10(OppositeExponent(f, level, temperature)), SumPower(level.reactants, level.coefficients))
  {
    var m := Adjusted(f, level, temperature);
    var u, v := f.pow10(OppositeExponent(f, level, temperature)), f.pow10(Exponent(f, level, temperature));
    forall i | 0 <= i < |level.products|
      ensures level.products[i] in m && m[level.products[i]] == v
    {
      AdjustedValues(f, level, temperature, level.products[i]);
    }
    forall i | 0 <= i < |level.reactants|
      ensures level.reactants[i] in m && m[level.reactants[i]] == u
    {
      AdjustedValues(f, level, temperature, level.reactants[i]);
    }
    SideOfConstant(level.products, m, level.coefficients, v);
    SideOfConstant(level.reactants, m, level.coefficients, u);
  }

  /**
   * Q of the adjusted concentrations is the K aimed at, when reactants and products are
   * disjoint and every coefficient is positive.
   */
  lemma AdjustedAtEquilibrium(f: Fns, level: Level, temperature: Option<real>)
    requires Pow10Laws(f) && InverseLaws(f) && Balanceable(level)
    requires forall s :: s in level.reactants ==> s !in level.products
    requires forall s :: s in level.coefficients ==> level.coefficients[s] > 0
    ensures Quotient(level, Adjusted(f, level, temperature)) == TargetK(f, level, temperature)
  {
    AdjustedSides(f, level, temperature);
    var m, k := Adjusted(f, level, temperature), TargetK(f, level, temperature);
    var a, b := Exponent(f, level, temperature), OppositeExponent(f, level, temperature);
    var p, r := SumPower(level.products, level.coefficients), SumPower(level.reactants, level.coefficients);
    AdjustedRatio(f, level, temperature);
    QuotientOfSides(level, m, NatPow(f.pow10(a), p), NatPow(f.pow10(b), r), k);
  }

  lemma QuotientOfSides(level: Level, conc: map<Species, real>, x: real, y: real, k: real)
    requires Side(level.products, conc, level.coefficients) == x
    requires Side(level.reactants, conc, level.coefficients) == y
    requires y != 0.0 && x / y == k
    ensures Quotient(level, conc) == k
  {
  }

  // ------------------------------------------------------------------ lookups

  /** `levels.filter(level => level.category === category)`. */
  function LevelsByCategory(levels: seq<Level>, category: string): (r: seq<Level>)
    ensures forall l :: l in r <==> l in levels && l.category == category
    ensures |r| <= |levels|
    decreases |levels|
  {
    if levels == [] then []
    else
      var rest := LevelsByCategory(levels[..|levels| - 1], category);
      var last := levels[|levels| - 1];
      assert levels == levels[..|levels| - 1] + [last];
      if last.category == category then rest + [last] else rest
  }

  /** The filter keeps the table's order: filtering a concatenation concatenates the filtered parts. */
  lemma {:induction false} LevelsByCategoryAppend(a: seq<Level>, b: seq<Level>, category: string)
    ensures LevelsByCategory(a + b, category) == LevelsByCategory(a, category) + LevelsByCategory(b, category)
    decreases |b|
  {
    if b != [] {
      var b0 := b[..|b| - 1];
      assert (a + b)[..|a + b| - 1] == a + b0;
      LevelsByCategoryAppend(a, b0, category);
    } else {
      assert a + b == a;
    }
  }

  /** `levels.findIndex(level => level.id === id)`: the first match, or -1. */
  function FindIndex(levels: seq<Level>, id: int): (i: int)
    ensures -1 <= i < |levels|
    ensures i >= 0 ==> levels[i].id == id && forall j :: 0 <= j < i ==> levels[j].id != id
    ensures i == -1 <==> forall j :: 0 <= j < |levels| ==> levels[j].id != id
    decreases |levels|
  {
    if levels == [] then -1
    else if levels[0].id == id then 0
    else
      var k := FindIndex(levels[1..], id);
      if k == -1 then -1 else k + 1
  }

  /** `getLevel(id)`: the first level with that id, or undefined. */
  function GetLevel(levels: seq<Level>, id: int): (r: Option<Level>)
    ensures r.None? <==> forall j :: 0 <= j < |levels| ==> levels[j].id != id
    ensures r.Some? ==> r.value.id == id && exists i :: 0 <= i < |levels| && levels[i] == r.value && forall j :: 0 <= j < i ==> levels[j].id != id
  {
    var i := FindIndex(levels, id);
    if i >= 0 then Some(levels[i]) else None
  }

  /**
   * `getNextLevel(id)`: the entry after the match; null after the last one; and, since an
   * unknown id has index -1, the first level for an id the table lacks.
   */
  function GetNextLevel(levels: seq<Level>, id: int): (r: Option<Level>)
    ensures FindIndex(levels, id) == -1 && |levels| > 0 ==> r == Some(levels[0])
    ensures FindIndex(levels, id) == |levels| - 1 ==> r.None?
    ensures 0 <= FindIndex(levels, id) < |levels| - 1 ==> r == Some(levels[FindIndex(levels, id) + 1])
    ensures levels == [] ==> r.None?
  {
    var i := FindIndex(levels, id);
    if i < |levels| - 1 then Some(levels[i + 1]) else None
  }
}
