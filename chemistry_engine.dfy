/**
 * The equilibrium model: the reaction quotient Q, the temperature-dependent constant K
 * (van 't Hoff), the bounded shift and balance derived from them, and the engine object
 * whose mutators change the current reaction's state in place.
 */
module Chemistry {
  import opened Wrappers
  import opened MathFns
  import opened Reaction
  import opened Utils

  const Eps: real := 1.0e-30
  const MinK: real := 1.0e-300
  const MaxK: real := 1e300
  const GasConstant: real := 8.314
  const MaxLnRatio: real := 690.0
  const AdjustmentFactor: real := 0.3

  // ------------------------------------------------------------------ quotient

  /** `(c[s] ?? EPS) || EPS`: a missing or zero concentration counts as EPS. */
  function QConc(conc: map<Species, real>, s: Species): (r: real)
    ensures r != 0.0
    ensures s in conc && conc[s] != 0.0 ==> r == conc[s]
  {
    if s in conc && conc[s] != 0.0 then conc[s] else Eps
  }

  /** `coefficients[s] || 1`: a missing or zero coefficient counts as 1. */
  function QCoef(coefs: map<Species, int>, s: Species): int
  {
    if s in coefs && coefs[s] != 0 then coefs[s] else 1
  }

  /** One factor `c[s] ** coef[s]` of the quotient. */
  function Term(conc: map<Species, real>, coefs: map<Species, int>, s: Species): (r: real)
    ensures r != 0.0
  {
    PowerSign(QConc(conc, s), QCoef(coefs, s));
    Power(QConc(conc, s), QCoef(coefs, s))
  }

  /** The terms of one side, in list order. */
  function Terms(species: seq<Species>, conc: map<Species, real>, coefs: map<Species, int>): (ts: seq<real>)
    ensures |ts| == |species|
    ensures forall i :: 0 <= i < |species| ==> ts[i] == Term(conc, coefs, species[i])
  {
    seq(|species|, i requires 0 <= i < |species| => Term(conc, coefs, species[i]))
  }

  /** Π over one side; never 0 because no term is. */
  function Side(species: seq<Species>, conc: map<Species, real>, coefs: map<Species, int>): (r: real)
    ensures r != 0.0
  {
    ProductSign(Terms(species, conc, coefs));
    Product(Terms(species, conc, coefs))
  }

  /** Q = Π products / Π reactants. */
  function Quotient(level: Level, conc: map<Species, real>): real
  {
    Side(level.products, conc, level.coefficients) / Side(level.reactants, conc, level.coefficients)
  }

  /** One accumulator loop of calculateQ: `acc *= Math.pow(conc, coef)` over the species. */
  method ProductOver(species: seq<Species>, conc: map<Species, real>, coefs: map<Species, int>) returns (acc: real)
    ensures acc == Side(species, conc, coefs)
  {
    ghost var ts := Terms(species, conc, coefs);
    acc := 1.0;
    var i := 0;
    while i < |species|
      invariant 0 <= i <= |species|
      invariant acc == Product(ts[..i])
    {
      ProductSnoc(ts, i);
      acc := acc * Term(conc, coefs, species[i]);
      i := i + 1;
    }
    assert ts[..i] == ts;
  }

  /** `calculateQ(level, concentrations)`: the products' loop over the reactants' loop. */
  method CalculateQ(level: Level, conc: map<Species, real>) returns (q: real)
    ensures q == Quotient(level, conc)
  {
    var numerator := ProductOver(level.products, conc, level.coefficients);
    var denominator := ProductOver(level.reactants, conc, level.coefficients);
    q := numerator / denominator;
  }

  /** A missing or zero concentration acts exactly as the value EPS. */
  lemma QuotientFloorsMissing(level: Level, conc: map<Species, real>, s: Species)
    requires s !in conc || conc[s] == 0.0
    ensures Quotient(level, conc) == Quotient(level, conc[s := Eps])
  {
    var c2 := conc[s := Eps];
    assert forall x :: QConc(conc, x) == QConc(c2, x);
    assert Terms(level.products, conc, level.coefficients) == Terms(level.products, c2, level.coefficients);
    assert Terms(level.reactants, conc, level.coefficients) == Terms(level.reactants, c2, level.coefficients);
  }

  /** A missing or zero coefficient acts exactly as the coefficient 1. */
  lemma QuotientDefaultCoefficient(level: Level, conc: map<Species, real>, s: Species)
    requires s !in level.coefficients || level.coefficients[s] == 0
    ensures Quotient(level, conc) == Quotient(level.(coefficients := level.coefficients[s := 1]), conc)
  {
    var k2 := level.coefficients[s := 1];
    assert forall x :: QCoef(level.coefficients, x) == QCoef(k2, x);
    assert Terms(level.products, conc, level.coefficients) == Terms(level.products, conc, k2);
    assert Terms(level.reactants, conc, level.coefficients) == Terms(level.reactants, conc, k2);
  }

  /** A negative concentration is used as it is: it is not floored to EPS. */
  lemma QuotientNegativeNotFloored(level: Level, conc: map<Species, real>, p: Species)
    requires level.products == [p] && level.reactants == []
    requires p in conc && conc[p] < 0.0 && QCoef(level.coefficients, p) == 1
    ensures Quotient(level, conc) == conc[p] < 0.0
  {
    var ts := Terms(level.products, conc, level.coefficients);
    assert Power(conc[p], 1) == NatPow(conc[p], 1) == NatPow(conc[p], 0) * conc[p];
    assert ts == [conc[p]];
    assert ts[..0] == [];
    assert Product(ts) == Product([]) * conc[p];
    assert Terms(level.reactants, conc, level.coefficients) == [];
  }

  /** With no negative concentration, Q is positive. */
  lemma QuotientPositive(level: Level, conc: map<Species, real>)
    requires forall s :: s in conc ==> 0.0 <= conc[s]
    ensures 0.0 < Quotient(level, conc)
  {
    forall s ensures 0.0 < QConc(conc, s) && 0.0 < Power(QConc(conc, s), QCoef(level.coefficients, s)) {
      PowerSign(QConc(conc, s), QCoef(level.coefficients, s));
    }
    ProductSign(Terms(level.products, conc, level.coefficients));
    ProductSign(Terms(level.reactants, conc, level.coefficients));
    var a, b := Side(level.products, conc, level.coefficients), Side(level.reactants, conc, level.coefficients);
    assert 0.0 < a && 0.0 < b;
    assert (a / b) * b == a;
  }

  // ------------------------------------------------------------------ constant K

  /** K0: the level's constant when it is positive, otherwise 1. */
  function BaseK(level: Level): (k0: real)
    ensures 0.0 < k0
    ensures level.equilibriumConstant.Some? && 0.0 < level.equilibriumConstant.value ==> k0 == level.equilibriumConstant.value
  {
    if level.equilibriumConstant.Some? && level.equilibriumConstant.value > 0.0 then level.equilibriumConstant.value else 1.0
  }

  /** T0 = `initialTemp || 298`, never 0. */
  function RefTemp(level: Level): (t0: real)
    ensures t0 != 0.0
  {
    OrElse(level.initialTemp, 298.0)
  }

  function DeltaH(level: Level): real { OrElse(level.deltaH, 0.0) }

  /** A missing sensitivity is 1; a present one, 0 included, is used as it is. */
  function Sensitivity(level: Level): real { level.temperatureSensitivity.GetOr(1.0) }

  /** `-(dH·1000)/R · (1/T - 1/T0) · sensitivity` before the ±690 clamp. */
  function RawLnRatio(level: Level, t: real): real
    requires t != 0.0
  {
    (-(DeltaH(level) * 1000.0) / GasConstant * (1.0 / t - 1.0 / RefTemp(level))) * Sensitivity(level)
  }

  /**
   * The clamped log-ratio; None stands for NaN. At T = 0 the division gives ±Infinity,
   * which becomes NaN when dH or the sensitivity is 0 and otherwise clamps to ±690 by sign.
   */
  function LnRatio(level: Level, t: real): (r: Option<real>)
    ensures r.Some? ==> -MaxLnRatio <= r.value <= MaxLnRatio
    ensures t != 0.0 ==> r == Some(Clamp(RawLnRatio(level, t), -MaxLnRatio, MaxLnRatio))
  {
    if t != 0.0 then Some(Clamp(RawLnRatio(level, t), -MaxLnRatio, MaxLnRatio))
    else if DeltaH(level) == 0.0 || Sensitivity(level) == 0.0 then None
    else if (DeltaH(level) < 0.0) == (Sensitivity(level) > 0.0) then Some(MaxLnRatio)
    else Some(-MaxLnRatio)
  }

  /** K from a log-ratio (None is NaN): K0 · exp(lnRatio), replaced when not positive, then clamped. */
  function KOfLn(f: Fns, level: Level, lnRatio: Option<real>): (k: real)
    ensures MinK <= k <= MaxK
  {
    match lnRatio
    case None => MinK
    case Some(ln) =>
      var raw := BaseK(level) * f.exp(ln);
      var fixed := if raw <= 0.0 then (if ln > 0.0 then MaxK else MinK) else raw;
      Clamp(fixed, MinK, MaxK)
  }

  /** `calculateK(level, T)`. */
  function CalculateK(f: Fns, level: Level, t: real): (k: real)
    ensures MinK <= k <= MaxK
  {
    KOfLn(f, level, LnRatio(level, t))
  }

  /** The consequences of the exponential's laws at two points. */
  lemma ExpOrder(f: Fns, x1: real, x2: real)
    requires ExpLaws(f)
    ensures 0.0 < f.exp(x1) && 0.0 < f.exp(x2)
    ensures x1 <= x2 ==> f.exp(x1) <= f.exp(x2)
    ensures x1 < x2 ==> f.exp(x1) < f.exp(x2)
  {
    if x1 < x2 {
      assert f.exp(x1) < f.exp(x2);
    }
  }

  /** With dH missing or 0, K is clamp(K0) at every nonzero temperature, and MIN_K at T = 0 (NaN). */
  lemma KWithoutDeltaH(f: Fns, level: Level, t: real)
    requires ExpLaws(f)
    requires DeltaH(level) == 0.0
    ensures t != 0.0 ==> CalculateK(f, level, t) == Clamp(BaseK(level), MinK, MaxK)
    ensures t == 0.0 ==> CalculateK(f, level, t) == MinK
  {
    if t != 0.0 {
      assert RawLnRatio(level, t) == 0.0;
      assert BaseK(level) * f.exp(0.0) == BaseK(level);
    }
  }

  /** 1/T decreases as T grows. */
  lemma ReciprocalAntitone(t1: real, t2: real)
    requires 0.0 < t1 <= t2
    ensures 1.0 / t2 <= 1.0 / t1
    ensures t1 < t2 ==> 1.0 / t2 < 1.0 / t1
  {
    assert (1.0 / t2) * t2 == 1.0 && (1.0 / t1) * t1 == 1.0;
  }

  /** For dH·sensitivity > 0 the raw log-ratio grows with T; for dH·sensitivity < 0 it falls. */
  lemma RawLnRatioMonotone(level: Level, t1: real, t2: real)
    requires 0.0 < t1 <= t2
    ensures 0.0 < DeltaH(level) * Sensitivity(level) ==> RawLnRatio(level, t1) <= RawLnRatio(level, t2)
    ensures DeltaH(level) * Sensitivity(level) < 0.0 ==> RawLnRatio(level, t2) <= RawLnRatio(level, t1)
    ensures t1 < t2 && 0.0 < DeltaH(level) * Sensitivity(level) ==> RawLnRatio(level, t1) < RawLnRatio(level, t2)
  {
    ReciprocalAntitone(t1, t2);
    var c := -(DeltaH(level) * 1000.0) / GasConstant;
    var s := Sensitivity(level);
    var inv0 := 1.0 / RefTemp(level);
    var u1, u2 := 1.0 / t1 - inv0, 1.0 / t2 - inv0;
    assert RawLnRatio(level, t1) == (c * u1) * s;
    assert RawLnRatio(level, t2) == (c * u2) * s;
    assert (c * u1) * s == (c * s) * u1 && (c * u2) * s == (c * s) * u2;
    assert c * s == -(DeltaH(level) * Sensitivity(level)) * 1000.0 / GasConstant;
    assert u2 <= u1;
    assert t1 < t2 ==> u2 < u1;
  }

  /** The clamped log-ratio at two positive temperatures, ordered by the sign of dH·sensitivity. */
  lemma LnRatioMonotone(level: Level, t1: real, t2: real)
    requires 0.0 < t1 <= t2
    ensures LnRatio(level, t1).Some? && LnRatio(level, t2).Some?
    ensures 0.0 < DeltaH(level) && 0.0 < Sensitivity(level) ==> LnRatio(level, t1).value <= LnRatio(level, t2).value
    ensures DeltaH(level) < 0.0 && 0.0 < Sensitivity(level) ==> LnRatio(level, t2).value <= LnRatio(level, t1).value
  {
    var r1, r2 := RawLnRatio(level, t1), RawLnRatio(level, t2);
    var d, s := DeltaH(level), Sensitivity(level);
    if 0.0 < d && 0.0 < s {
      assert 0.0 < d * s;
      RawLnRatioMonotone(level, t1, t2);
      ClampMonotone(r1, r2, -MaxLnRatio, MaxLnRatio);
    } else if d < 0.0 && 0.0 < s {
      assert d * s < 0.0;
      RawLnRatioMonotone(level, t1, t2);
      ClampMonotone(r2, r1, -MaxLnRatio, MaxLnRatio);
    }
  }

  /** For a numeric log-ratio x with exp(x) > 0, K is clamp(K0·exp(x)): the not-positive fallback never fires. */
  lemma KOfNumber(f: Fns, level: Level, x: real)
    requires 0.0 < f.exp(x)
    ensures KOfLn(f, level, Some(x)) == Clamp(BaseK(level) * f.exp(x), MinK, MaxK)
  {
    var a, e := BaseK(level), f.exp(x);
    MulMonotone(a, 0.0, e);
    assert 0.0 < a * e;
  }

  /** K of a numeric log-ratio follows exp: weakly, and strictly while neither clamp is active. */
  lemma KOfNumberMonotone(f: Fns, level: Level, x1: real, x2: real)
    requires 0.0 < f.exp(x1) <= f.exp(x2)
    ensures KOfLn(f, level, Some(x1)) <= KOfLn(f, level, Some(x2))
    ensures f.exp(x1) < f.exp(x2) && MinK <= BaseK(level) * f.exp(x1) && BaseK(level) * f.exp(x2) <= MaxK ==>
      KOfLn(f, level, Some(x1)) < KOfLn(f, level, Some(x2))
  {
    KOfNumber(f, level, x1);
    KOfNumber(f, level, x2);
    ScaledClampOrder(f, level, x1, x2);
  }

  lemma ScaledClampOrder(f: Fns, level: Level, x1: real, x2: real)
    requires 0.0 < f.exp(x1) <= f.exp(x2)
    ensures Clamp(BaseK(level) * f.exp(x1), MinK, MaxK) <= Clamp(BaseK(level) * f.exp(x2), MinK, MaxK)
    ensures f.exp(x1) < f.exp(x2) && MinK <= BaseK(level) * f.exp(x1) && BaseK(level) * f.exp(x2) <= MaxK ==>
      Clamp(BaseK(level) * f.exp(x1), MinK, MaxK) < Clamp(BaseK(level) * f.exp(x2), MinK, MaxK)
  {
    var a, e1, e2 := BaseK(level), f.exp(x1), f.exp(x2);
    MulMonotone(a, e1, e2);
    ClampMonotone(a * e1, a * e2, MinK, MaxK);
  }

  /** dH > 0 and sensitivity > 0: K does not decrease as T rises. */
  lemma KMonotone(f: Fns, level: Level, t1: real, t2: real)
    requires ExpLaws(f)
    requires 0.0 < DeltaH(level) && 0.0 < Sensitivity(level)
    requires 0.0 < t1 <= t2
    ensures CalculateK(f, level, t1) <= CalculateK(f, level, t2)
  {
    LnRatioMonotone(level, t1, t2);
    var x1, x2 := LnRatio(level, t1).value, LnRatio(level, t2).value;
    ExpOrder(f, x1, x2);
    KOfNumberMonotone(f, level, x1, x2);
  }

  /** dH < 0 and sensitivity > 0: K does not increase as T rises. */
  lemma KAntitone(f: Fns, level: Level, t1: real, t2: real)
    requires ExpLaws(f)
    requires DeltaH(level) < 0.0 && 0.0 < Sensitivity(level)
    requires 0.0 < t1 <= t2
    ensures CalculateK(f, level, t2) <= CalculateK(f, level, t1)
  {
    LnRatioMonotone(level, t1, t2);
    var x1, x2 := LnRatio(level, t1).value, LnRatio(level, t2).value;
    ExpOrder(f, x2, x1);
    KOfNumberMonotone(f, level, x2, x1);
  }

  /** Inside the ±690 window the log-ratio is the raw one, and for dH, sensitivity > 0 it rises strictly. */
  lemma LnRatioStrict(level: Level, t1: real, t2: real)
    requires 0.0 < DeltaH(level) && 0.0 < Sensitivity(level)
    requires 0.0 < t1 < t2
    requires -MaxLnRatio <= RawLnRatio(level, t1) && RawLnRatio(level, t2) <= MaxLnRatio
    ensures LnRatio(level, t1) == Some(RawLnRatio(level, t1))
    ensures LnRatio(level, t2) == Some(RawLnRatio(level, t2))
    ensures RawLnRatio(level, t1) < RawLnRatio(level, t2)
  {
    assert 0.0 < DeltaH(level) * Sensitivity(level);
    RawLnRatioMonotone(level, t1, t2);
  }

  /** Strictly increasing while neither clamp is active. */
  lemma KStrictlyMonotone(f: Fns, level: Level, t1: real, t2: real)
    requires ExpLaws(f)
    requires 0.0 < DeltaH(level) && 0.0 < Sensitivity(level)
    requires 0.0 < t1 < t2
    requires -MaxLnRatio <= RawLnRatio(level, t1) && RawLnRatio(level, t2) <= MaxLnRatio
    requires MinK <= BaseK(level) * f.exp(RawLnRatio(level, t1))
    requires BaseK(level) * f.exp(RawLnRatio(level, t2)) <= MaxK
    ensures CalculateK(f, level, t1) < CalculateK(f, level, t2)
  {
    LnRatioStrict(level, t1, t2);
    KOfRatios(f, level, t1, t2, RawLnRatio(level, t1), RawLnRatio(level, t2));
  }

  /** K at two temperatures whose log-ratios are the numbers x1 < x2, neither clamp active. */
  lemma KOfRatios(f: Fns, level: Level, t1: real, t2: real, x1: real, x2: real)
    requires ExpLaws(f)
    requires LnRatio(level, t1) == Some(x1) && LnRatio(level, t2) == Some(x2) && x1 < x2
    requires MinK <= BaseK(level) * f.exp(x1) && BaseK(level) * f.exp(x2) <= MaxK
    ensures CalculateK(f, level, t1) < CalculateK(f, level, t2)
  {
    ExpOrder(f, x1, x2);
    KOfNumberMonotone(f, level, x1, x2);
  }

  // ------------------------------------------------------------------ shift, balance

  /** `calculateShift(K, Q)`: 0 if either is 0, else -tanh(ln(Q/K)). */
  function Shift(f: Fns, k: real, q: real): real
  {
    if k == 0.0 || q == 0.0 then 0.0 else -f.tanh(f.ln(q / k))
  }

  /** The log of q/k is negative, zero or positive as q is below, at or above k. */
  lemma LnRatioSign(f: Fns, k: real, q: real)
    requires LnLaws(f)
    requires 0.0 < k && 0.0 < q
    ensures q < k <==> f.ln(q / k) < 0.0
    ensures q > k <==> f.ln(q / k) > 0.0
    ensures q == k <==> f.ln(q / k) == 0.0
  {
    var r := q / k;
    RatioVersusOne(q, k);
    if r < 1.0 { assert f.ln(r) < f.ln(1.0); }
    if r > 1.0 { assert f.ln(1.0) < f.ln(r); }
  }

  /** tanh has the sign of its argument. */
  lemma TanhSign(f: Fns, x: real)
    requires TanhLaws(f)
    ensures x < 0.0 <==> f.tanh(x) < 0.0
    ensures x > 0.0 <==> f.tanh(x) > 0.0
  {
    if x < 0.0 { assert f.tanh(x) < f.tanh(0.0); }
    if x > 0.0 { assert f.tanh(0.0) < f.tanh(x); }
  }

  /** The shift points toward equilibrium and stays strictly inside (-1, 1). */
  lemma ShiftSign(f: Fns, k: real, q: real)
    requires LnLaws(f) && TanhLaws(f)
    ensures k == 0.0 || q == 0.0 ==> Shift(f, k, q) == 0.0
    ensures 0.0 < k && 0.0 < q ==> (Shift(f, k, q) > 0.0 <==> q < k)
    ensures 0.0 < k && 0.0 < q ==> (Shift(f, k, q) < 0.0 <==> q > k)
    ensures 0.0 < k && 0.0 < q ==> (Shift(f, k, q) == 0.0 <==> q == k)
    ensures -1.0 < Shift(f, k, q) < 1.0
  {
    if 0.0 < k && 0.0 < q {
      LnRatioSign(f, k, q);
      TanhSign(f, f.ln(q / k));
    }
    if k != 0.0 && q != 0.0 {
      assert -1.0 < f.tanh(f.ln(q / k)) < 1.0;
    }
  }

  /** The balance: clamp(-log10(Q/K)/2, -1, 1), or 0 when Q or K is 0. */
  function Balance(f: Fns, q: real, k: real): (b: real)
    ensures -1.0 <= b <= 1.0
  {
    if q == 0.0 || k == 0.0 then 0.0 else Clamp(-f.log10(q / k) / 2.0, -1.0, 1.0)
  }

  /** The balance has the sign of the shift. */
  lemma BalanceSign(f: Fns, q: real, k: real)
    requires Log10Laws(f)
    requires 0.0 < k && 0.0 < q
    ensures Balance(f, q, k) > 0.0 <==> q < k
    ensures Balance(f, q, k) < 0.0 <==> q > k
    ensures Balance(f, q, k) == 0.0 <==> q == k
  {
    var r := q / k;
    RatioVersusOne(q, k);
    if r < 1.0 { assert f.log10(r) < f.log10(1.0); }
    if r > 1.0 { assert f.log10(1.0) < f.log10(r); }
  }

  /** `calculateAchievement(goal)` for a given balance: forward rewards b > 0, anything else b < 0. */
  function Achievement(balance: real, goal: string): (a: real)
    ensures 0.0 <= a <= 100.0
  {
    if goal == "forward" then Clamp((balance + 1.0) / 2.0 * 100.0, 0.0, 100.0)
    else Clamp((-balance + 1.0) / 2.0 * 100.0, 0.0, 100.0)
  }

  /** For a balance in range the two goals' achievements add up to 100. */
  lemma AchievementComplement(balance: real)
    requires -1.0 <= balance <= 1.0
    ensures Achievement(balance, "forward") + Achievement(balance, "reverse") == 100.0
    ensures Achievement(balance, "forward") == (balance + 1.0) * 50.0
  {
  }

  // ------------------------------------------------------------------ state updates

  /** The adjustPressure loop over the first n gas species: each with an initial value becomes initial · ratio. */
  function RescaleFrom(m: map<Species, real>, keys: seq<Species>, n: nat, base: map<Species, real>, ratio: real): map<Species, real>
    requires n <= |keys|
  {
    if n == 0 then m
    else
      var prev := RescaleFrom(m, keys, n - 1, base, ratio);
      if keys[n - 1] in base then prev[keys[n - 1] := Apply(Scale(ratio), base[keys[n - 1]])] else prev
  }

  /** The adjustPressure loop itself. */
  method RescaleGas(m: map<Species, real>, gas: seq<Species>, base: map<Species, real>, ratio: real) returns (conc: map<Species, real>)
    ensures conc == RescaleFrom(m, gas, |gas|, base, ratio)
  {
    conc := m;
    var i := 0;
    while i < |gas|
      invariant 0 <= i <= |gas|
      invariant conc == RescaleFrom(m, gas, i, base, ratio)
    {
      var s := gas[i];
      if s in base {
        conc := conc[s := Apply(Scale(ratio), base[s])];
      }
      i := i + 1;
    }
  }

  /** The result of RescaleFrom on one species: absolute, not relative to the current value. */
  lemma {:induction false} RescaleFromAt(m: map<Species, real>, keys: seq<Species>, n: nat, base: map<Species, real>, ratio: real, s: Species)
    requires n <= |keys|
    ensures s in keys[..n] && s in base ==> s in RescaleFrom(m, keys, n, base, ratio) && RescaleFrom(m, keys, n, base, ratio)[s] == base[s] * ratio
    ensures !(s in keys[..n] && s in base) ==> (s in RescaleFrom(m, keys, n, base, ratio) <==> s in m)
    ensures !(s in keys[..n] && s in base) && s in m ==> RescaleFrom(m, keys, n, base, ratio)[s] == m[s]
  {
    if n > 0 {
      RescaleFromAt(m, keys, n - 1, base, ratio, s);
      assert keys[..n] == keys[..n - 1] + [keys[n - 1]];
    }
  }

  /** The concentration table after the source's applyCatalyst (the second definition). */
  function CatalystConcentrations(level: Level, conc: map<Species, real>, q: real, k: real): map<Species, real>
  {
    if q < k then UpdateEach(UpdateEach(conc, level.reactants, Scale(1.0 - AdjustmentFactor * 0.1)), level.products, Scale(1.0 + AdjustmentFactor * 0.1))
    else if q > k then UpdateEach(UpdateEach(conc, level.reactants, Scale(1.0 + AdjustmentFactor * 0.1)), level.products, Scale(1.0 - AdjustmentFactor * 0.1))
    else conc
  }

  /** Two lists with no species in common. */
  predicate Disjoint(a: seq<Species>, b: seq<Species>)
  {
    forall i, j :: 0 <= i < |a| && 0 <= j < |b| ==> a[i] != b[j]
  }

  /** The effect of two successive loops on one species, for distinct, disjoint lists. */
  lemma TwoLoopsAt(m: map<Species, real>, rs: seq<Species>, ps: seq<Species>, sr: Step, sp: Step, s: Species)
    requires Distinct(rs) && Distinct(ps) && Disjoint(rs, ps) && s in m
    ensures UpdateEach(UpdateEach(m, rs, sr), ps, sp).Keys == m.Keys
    ensures s in rs ==> UpdateEach(UpdateEach(m, rs, sr), ps, sp)[s] == Apply(sr, m[s])
    ensures s in ps ==> UpdateEach(UpdateEach(m, rs, sr), ps, sp)[s] == Apply(sp, m[s])
    ensures s !in rs && s !in ps ==> UpdateEach(UpdateEach(m, rs, sr), ps, sp)[s] == m[s]
  {
    var m1 := UpdateEach(m, rs, sr);
    UpdateEachDomain(m, rs, sr);
    UpdateEachDomain(m1, ps, sp);
    if s in rs {
      UpdateEachInside(m, rs, sr, s);
      assert s !in ps;
      UpdateEachOutside(m1, ps, sp, s);
    } else if s in ps {
      UpdateEachOutside(m, rs, sr, s);
      UpdateEachInside(m1, ps, sp, s);
    } else {
      UpdateEachOutside(m, rs, sr, s);
      UpdateEachOutside(m1, ps, sp, s);
    }
  }

  /** Q < K: every reactant ×0.97 and every product ×1.03; Q > K the reverse; Q = K nothing. */
  lemma CatalystEffect(level: Level, conc: map<Species, real>, q: real, k: real, s: Species)
    requires Distinct(level.reactants) && Distinct(level.products) && Disjoint(level.reactants, level.products)
    requires s in conc
    ensures CatalystConcentrations(level, conc, q, k).Keys == conc.Keys
    ensures q < k && s in level.reactants ==> CatalystConcentrations(level, conc, q, k)[s] == conc[s] * 0.97
    ensures q < k && s in level.products ==> CatalystConcentrations(level, conc, q, k)[s] == conc[s] * 1.03
    ensures q > k && s in level.reactants ==> CatalystConcentrations(level, conc, q, k)[s] == conc[s] * 1.03
    ensures q > k && s in level.products ==> CatalystConcentrations(level, conc, q, k)[s] == conc[s] * 0.97
    ensures q == k || (s !in level.reactants && s !in level.products) ==> CatalystConcentrations(level, conc, q, k)[s] == conc[s]
  {
    if q < k {
      TwoLoopsAt(conc, level.reactants, level.products, Scale(0.97), Scale(1.03), s);
    } else if q > k {
      TwoLoopsAt(conc, level.reactants, level.products, Scale(1.03), Scale(0.97), s);
    }
  }

  /** The concentration table after simulateTimeStep(dt) with the given stored Q and K. */
  function TimeStepConcentrations(level: Level, conc: map<Species, real>, q: real, k: real, dt: real): map<Species, real>
  {
    var d := 0.1 * dt * 0.1;
    var gap := if q - k < 0.0 then k - q else q - k;
    if gap <= 0.001 then conc
    else if q < k then UpdateEach(UpdateEach(conc, level.reactants, DecreaseTo(d, 0.001)), level.products, Add(d))
    else UpdateEach(UpdateEach(conc, level.reactants, Add(d)), level.products, DecreaseTo(d, 0.001))
  }

  /** Away from equilibrium a step moves the consumed side down (never below 0.001) and the other side up by dt/100. */
  lemma TimeStepEffect(level: Level, conc: map<Species, real>, q: real, k: real, dt: real, s: Species)
    requires Distinct(level.reactants) && Distinct(level.products) && Disjoint(level.reactants, level.products)
    requires s in conc
    ensures TimeStepConcentrations(level, conc, q, k, dt).Keys == conc.Keys
    ensures q + 0.001 < k && s in level.reactants ==>
      TimeStepConcentrations(level, conc, q, k, dt)[s] == (if conc[s] - dt / 100.0 < 0.001 then 0.001 else conc[s] - dt / 100.0)
    ensures q + 0.001 < k && s in level.products ==> TimeStepConcentrations(level, conc, q, k, dt)[s] == conc[s] + dt / 100.0
    ensures k + 0.001 < q && s in level.reactants ==> TimeStepConcentrations(level, conc, q, k, dt)[s] == conc[s] + dt / 100.0
    ensures k + 0.001 < q && s in level.products ==>
      TimeStepConcentrations(level, conc, q, k, dt)[s] == (if conc[s] - dt / 100.0 < 0.001 then 0.001 else conc[s] - dt / 100.0)
    ensures (-0.001 <= q - k <= 0.001) || (s !in level.reactants && s !in level.products) ==>
      TimeStepConcentrations(level, conc, q, k, dt)[s] == conc[s]
  {
    var d := 0.1 * dt * 0.1;
    assert d == dt / 100.0;
    if q + 0.001 < k {
      TwoLoopsAt(conc, level.reactants, level.products, DecreaseTo(d, 0.001), Add(d), s);
    } else if k + 0.001 < q {
      TwoLoopsAt(conc, level.reactants, level.products, Add(d), DecreaseTo(d, 0.001), s);
    }
  }

  /** A snapshot of the engine's reaction state (`getState`). */
  datatype EngineState = EngineState(temperature: real, pressure: real, concentrations: map<Species, real>,
                                     q: real, k: real, balance: real)

  /**
   * The engine singleton. `reaction` is the current reaction (None before initReaction);
   * the other fields are its `state` record and the `bufferActive` flag set on it.
   */
  class ChemistryEngine {
    const fns: Fns
    var reaction: Option<Level>
    var temperature: real
    var pressure: real
    var concentrations: map<Species, real>
    var q: real
    var k: real
    var balance: real
    var bufferActive: bool

    /** K, Q and the balance agree with the state, and the pressure divides. */
    predicate Valid()
      reads this
    {
      reaction.Some? ==>
        && pressure != 0.0
        && k == CalculateK(fns, reaction.value, temperature)
        && q == Quotient(reaction.value, concentrations)
        && balance == Balance(fns, q, k)
    }

    constructor(f: Fns)
      ensures fns == f && reaction == None && !bufferActive && Valid()
    {
      fns := f;
      reaction := None;
      temperature, pressure := 0.0, 0.0;
      concentrations := map[];
      q, k, balance := 1.0, 1.0, 0.0;
      bufferActive := false;
    }

    /** `calculateEquilibrium`: recompute K at the current temperature, then Q, then the balance. */
    method CalculateEquilibrium()
      modifies this
      ensures reaction == old(reaction) && temperature == old(temperature) && pressure == old(pressure)
      ensures concentrations == old(concentrations) && bufferActive == old(bufferActive)
      ensures reaction.None? ==> q == old(q) && k == old(k) && balance == old(balance)
      ensures reaction.Some? ==> k == CalculateK(fns, reaction.value, temperature)
      ensures reaction.Some? ==> q == Quotient(reaction.value, concentrations) && balance == Balance(fns, q, k)
      ensures reaction.Some? ==> MinK <= k <= MaxK && -1.0 <= balance <= 1.0
      ensures old(reaction.Some? ==> pressure != 0.0) ==> Valid()
    {
      if reaction.None? { return; }
      k := CalculateK(fns, reaction.value, temperature);
      q := CalculateQ(reaction.value, concentrations);
      balance := Balance(fns, q, k);
    }

    /** `initReaction`: T = initialTemp || 298, P = initialPressure || 101, a copy of the initial table. */
    method InitReaction(level: Level)
      modifies this
      ensures reaction == Some(level) && !bufferActive
      ensures temperature == OrElse(level.initialTemp, 298.0) && pressure == OrElse(level.initialPressure, 101.0)
      ensures concentrations == level.initialConcentrations
      ensures Valid()
    {
      reaction := Some(level);
      temperature := OrElse(level.initialTemp, 298.0);
      pressure := OrElse(level.initialPressure, 101.0);
      concentrations := level.initialConcentrations;
      q := 1.0;
      k := OrElse(level.equilibriumConstant, 1.0);
      balance := 0.0;
      bufferActive := false;
      CalculateEquilibrium();
    }

    /** `reset`: a fresh state for the same reaction; the buffer flag is not part of it. */
    method Reset()
      modifies this
      ensures reaction == old(reaction) && bufferActive == old(bufferActive)
      ensures reaction.None? ==> temperature == old(temperature) && pressure == old(pressure) && concentrations == old(concentrations)
      ensures reaction.Some? ==> temperature == OrElse(reaction.value.initialTemp, 298.0)
      ensures reaction.Some? ==> pressure == OrElse(reaction.value.initialPressure, 101.0)
      ensures reaction.Some? ==> concentrations == reaction.value.initialConcentrations
      ensures old(Valid()) ==> Valid()
    {
      if reaction.None? { return; }
      var level := reaction.value;
      temperature := OrElse(level.initialTemp, 298.0);
      pressure := OrElse(level.initialPressure, 101.0);
      concentrations := level.initialConcentrations;
      q := 1.0;
      k := OrElse(level.equilibriumConstant, 1.0);
      balance := 0.0;
      CalculateEquilibrium();
    }

    /** The loop `for (s of keys) c[s] = step(c[s])` on the state's table. */
    method UpdateSpecies(keys: seq<Species>, st: Step)
      modifies this
      ensures concentrations == UpdateEach(old(concentrations), keys, st)
      ensures reaction == old(reaction) && temperature == old(temperature) && pressure == old(pressure)
      ensures q == old(q) && k == old(k) && balance == old(balance) && bufferActive == old(bufferActive)
    {
      var i := 0;
      while i < |keys|
        invariant 0 <= i <= |keys|
        invariant concentrations == UpdateEach(old(concentrations), keys[..i], st)
        invariant reaction == old(reaction) && temperature == old(temperature) && pressure == old(pressure)
        invariant q == old(q) && k == old(k) && balance == old(balance) && bufferActive == old(bufferActive)
      {
        assert keys[..i + 1][..i] == keys[..i];
        var s := keys[i];
        if s in concentrations {
          concentrations := concentrations[s := Apply(st, concentrations[s])];
        }
        i := i + 1;
      }
      assert keys[..i] == keys;
    }

    /** `adjustConcentration(s, delta)`: (c[s] || 0.1) + delta, clamped to [0.001, 10]. */
    method AdjustConcentration(species: Species, delta: real)
      modifies this
      requires Valid()
      ensures reaction == old(reaction) && temperature == old(temperature) && pressure == old(pressure)
      ensures reaction.None? ==> concentrations == old(concentrations)
      ensures reaction.Some? ==> concentrations == old(concentrations)[species := Clamp(LookupOr(old(concentrations), species, 0.1) + delta, 0.001, 10.0)]
      ensures reaction.Some? ==> 0.001 <= concentrations[species] <= 10.0
      ensures Valid()
    {
      if reaction.None? { return; }
      var current := LookupOr(concentrations, species, 0.1);
      concentrations := concentrations[species := Clamp(current + delta, 0.001, 10.0)];
      CalculateEquilibrium();
    }

    /** `setConcentration(s, v)`: v clamped to [0.001, 10]. */
    method SetConcentration(species: Species, value: real)
      modifies this
      requires Valid()
      ensures reaction == old(reaction) && temperature == old(temperature) && pressure == old(pressure)
      ensures reaction.None? ==> concentrations == old(concentrations)
      ensures reaction.Some? ==> concentrations == old(concentrations)[species := Clamp(value, 0.001, 10.0)]
      ensures reaction.Some? ==> 0.001 <= concentrations[species] <= 10.0
      ensures Valid()
    {
      if reaction.None? { return; }
      concentrations := concentrations[species := Clamp(value, 0.001, 10.0)];
      CalculateEquilibrium();
    }

    /** `adjustTemperature(delta)`: T + delta clamped to [200, 500]. */
    method AdjustTemperature(delta: real)
      modifies this
      requires Valid()
      ensures reaction == old(reaction) && concentrations == old(concentrations) && pressure == old(pressure)
      ensures reaction.None? ==> temperature == old(temperature)
      ensures reaction.Some? ==> temperature == Clamp(old(temperature) + delta, 200.0, 500.0)
      ensures reaction.Some? ==> 200.0 <= temperature <= 500.0
      ensures Valid()
    {
      if reaction.None? { return; }
      temperature := Clamp(temperature + delta, 200.0, 500.0);
      CalculateEquilibrium();
    }

    /** `setTemperature(v)`: v clamped to [200, 500]. */
    method SetTemperature(value: real)
      modifies this
      requires Valid()
      ensures reaction == old(reaction) && concentrations == old(concentrations) && pressure == old(pressure)
      ensures reaction.None? ==> temperature == old(temperature)
      ensures reaction.Some? ==> temperature == Clamp(value, 200.0, 500.0) && 200.0 <= temperature <= 500.0
      ensures Valid()
    {
      if reaction.None? { return; }
      temperature := Clamp(value, 200.0, 500.0);
      CalculateEquilibrium();
    }

    /**
     * `adjustPressure(delta)`: only for gas reactions. P + delta is clamped to [10, 500] and
     * every gas species is set from its INITIAL concentration times P/101.
     */
    method AdjustPressure(delta: real)
      modifies this
      requires Valid()
      ensures reaction == old(reaction) && temperature == old(temperature)
      ensures reaction.None? || !reaction.value.hasGas ==>
        pressure == old(pressure) && concentrations == old(concentrations) && q == old(q) && k == old(k) && balance == old(balance)
      ensures reaction.Some? && reaction.value.hasGas ==>
        && pressure == Clamp(old(pressure) + delta, 10.0, 500.0)
        && concentrations == RescaleFrom(old(concentrations), GasList(reaction.value), |GasList(reaction.value)|,
                                         reaction.value.initialConcentrations, pressure / 101.0)
      ensures Valid()
    {
      if reaction.None? || !reaction.value.hasGas { return; }
      RescaleForPressure(Clamp(pressure + delta, 10.0, 500.0));
      CalculateEquilibrium();
    }

    /** The body of adjustPressure before the recomputation: the new pressure and the gas rescale. */
    method RescaleForPressure(p: real)
      modifies this
      requires reaction.Some?
      ensures reaction == old(reaction) && temperature == old(temperature)
      ensures pressure == p
      ensures concentrations == RescaleFrom(old(concentrations), GasList(reaction.value), |GasList(reaction.value)|,
                                            reaction.value.initialConcentrations, p / 101.0)
    {
      var level := reaction.value;
      var conc := RescaleGas(concentrations, GasList(level), level.initialConcentrations, p / 101.0);
      pressure, concentrations := p, conc;
    }

    /** `setPressure(v)`: only for gas reactions; every gas species is rescaled by P_new/P_old. */
    method SetPressure(value: real)
      modifies this
      requires Valid()
      ensures reaction == old(reaction) && temperature == old(temperature)
      ensures reaction.None? || !reaction.value.hasGas ==>
        pressure == old(pressure) && concentrations == old(concentrations) && q == old(q) && k == old(k) && balance == old(balance)
      ensures reaction.Some? && reaction.value.hasGas ==>
        && pressure == Clamp(value, 10.0, 500.0)
        && concentrations == UpdateEach(old(concentrations), GasList(reaction.value), Scale(pressure / old(pressure)))
      ensures Valid()
    {
      if reaction.None? || !reaction.value.hasGas { return; }
      var oldPressure := pressure;
      pressure := Clamp(value, 10.0, 500.0);
      UpdateSpecies(GasList(reaction.value), Scale(pressure / oldPressure));
      CalculateEquilibrium();
    }

    /** The effective `applyCatalyst` (the later of the two definitions). */
    method ApplyCatalyst()
      modifies this
      requires Valid()
      ensures reaction == old(reaction) && temperature == old(temperature) && pressure == old(pressure)
      ensures reaction.None? ==> concentrations == old(concentrations)
      ensures reaction.Some? ==> concentrations == CatalystConcentrations(reaction.value, old(concentrations), old(q), old(k))
      ensures Valid()
    {
      if reaction.None? { return; }
      var level := reaction.value;
      if q < k {
        UpdateSpecies(level.reactants, Scale(1.0 - AdjustmentFactor * 0.1));
        UpdateSpecies(level.products, Scale(1.0 + AdjustmentFactor * 0.1));
      } else if q > k {
        UpdateSpecies(level.reactants, Scale(1.0 + AdjustmentFactor * 0.1));
        UpdateSpecies(level.products, Scale(1.0 - AdjustmentFactor * 0.1));
      }
      CalculateEquilibrium();
    }

    /** `applyBuffer`: only raises the flag on the current reaction. */
    method ApplyBuffer()
      modifies this
      ensures reaction == old(reaction) && temperature == old(temperature) && pressure == old(pressure)
      ensures concentrations == old(concentrations) && q == old(q) && k == old(k) && balance == old(balance)
      ensures bufferActive == (old(bufferActive) || reaction.Some?)
    {
      if reaction.None? { return; }
      bufferActive := true;
    }

    /** `applyHeatExchange(target)`: the temperature is set without a clamp. */
    method ApplyHeatExchange(target: real)
      modifies this
      requires Valid()
      ensures reaction == old(reaction) && concentrations == old(concentrations) && pressure == old(pressure)
      ensures temperature == if reaction.Some? then target else old(temperature)
      ensures Valid()
    {
      if reaction.None? { return; }
      temperature := target;
      CalculateEquilibrium();
    }

    /** `simulateTimeStep(dt)`: one relaxation step toward equilibrium using the stored Q and K. */
    method SimulateTimeStep(dt: real)
      modifies this
      requires Valid()
      ensures reaction == old(reaction) && temperature == old(temperature) && pressure == old(pressure)
      ensures reaction.None? ==> concentrations == old(concentrations)
      ensures reaction.Some? ==> concentrations == TimeStepConcentrations(reaction.value, old(concentrations), old(q), old(k), dt)
      ensures Valid()
    {
      if reaction.None? { return; }
      var level := reaction.value;
      var rate := 0.1 * dt;
      var gap := if q - k < 0.0 then k - q else q - k;
      if gap > 0.001 {
        if q < k {
          UpdateSpecies(level.reactants, DecreaseTo(rate * 0.1, 0.001));
          UpdateSpecies(level.products, Add(rate * 0.1));
        } else {
          UpdateSpecies(level.reactants, Add(rate * 0.1));
          UpdateSpecies(level.products, DecreaseTo(rate * 0.1, 0.001));
        }
      }
      CalculateEquilibrium();
    }

    /** `getState`: the state record, or None without a reaction. */
    function GetState(): (s: Option<EngineState>)
      reads this
      ensures s.Some? <==> reaction.Some?
      ensures s.Some? ==> s.value.temperature == temperature && s.value.concentrations == concentrations && s.value.balance == balance
    {
      if reaction.None? then None else Some(EngineState(temperature, pressure, concentrations, q, k, balance))
    }

    /** `getBalance`: the balance, 0 without a reaction. */
    function GetBalance(): (b: real)
      reads this
      ensures Valid() ==> -1.0 <= b <= 1.0
    {
      if reaction.None? then 0.0 else balance
    }

    /** `calculateAchievement(goal)`: 0 without a reaction, else a percentage of the balance. */
    function CalculateAchievement(goal: string): (a: real)
      reads this
      ensures 0.0 <= a <= 100.0
      ensures reaction.None? ==> a == 0.0
    {
      if reaction.None? then 0.0 else Achievement(balance, goal)
    }
  }
}
