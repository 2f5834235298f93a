/**
 * The transcendental functions the game calls through `Math` (exp, log, tanh, log10,
 * `10 ** x`, sin, cos), passed around as function values. Nothing is known about them
 * beyond the laws collected in `Lawful`; lemmas that need a law require it.
 */
module MathFns {
  datatype Fns = Fns(
    exp: real -> real,
    ln: real -> real,
    tanh: real -> real,
    log10: real -> real,
    pow10: real -> real,
    sin: real -> real,
    cos: real -> real)

  /** The laws of the real functions that the proofs rely on. */
  ghost predicate Lawful(f: Fns)
  {
    ExpLogLaws(f) && Pow10Laws(f) && InverseLaws(f) && TrigLaws(f)
  }

  ghost predicate ExpLogLaws(f: Fns)
  {
    ExpLaws(f) && LnLaws(f) && TanhLaws(f) && Log10Laws(f)
  }

  ghost predicate ExpLaws(f: Fns)
  {
    && f.exp(0.0) == 1.0
    && (forall x :: 0.0 < f.exp(x))
    && (forall x, y :: x < y ==> f.exp(x) < f.exp(y))
  }

  ghost predicate LnLaws(f: Fns)
  {
    && f.ln(1.0) == 0.0
    && (forall x, y :: 0.0 < x < y ==> f.ln(x) < f.ln(y))
  }

  ghost predicate TanhLaws(f: Fns)
  {
    && f.tanh(0.0) == 0.0
    && (forall x :: -1.0 < f.tanh(x) < 1.0)
    && (forall x, y :: x + y == 0.0 ==> f.tanh(y) == -f.tanh(x))
    && (forall x, y :: x < y ==> f.tanh(x) < f.tanh(y))
  }

  ghost predicate Log10Laws(f: Fns)
  {
    && f.log10(1.0) == 0.0
    && (forall x, y :: 0.0 < x < y ==> f.log10(x) < f.log10(y))
  }

  ghost predicate Pow10Laws(f: Fns)
  {
    && (forall x :: 0.0 < f.pow10(x))
    && (forall x, y, z {:trigger SumOf(x, y, z)} :: SumOf(x, y, z) ==> f.pow10(z) == f.pow10(x) * f.pow10(y))
  }

  /**
   * x + y = z. The product law of `pow10` is stated for the exponents marked this way, so
   * that it is used where a proof asks for it rather than for every pair of powers in sight.
   */
  predicate SumOf(x: real, y: real, z: real)
  {
    x + y == z
  }

  ghost predicate InverseLaws(f: Fns)
  {
    forall k :: 0.0 < k ==> f.pow10(f.log10(k)) == k
  }

  ghost predicate TrigLaws(f: Fns)
  {
    && (forall x :: -1.0 <= f.sin(x) <= 1.0)
    && (forall x :: -1.0 <= f.cos(x) <= 1.0)
  }

  /** x ** n for a natural exponent, one factor at a time. */
  function NatPow(x: real, n: nat): real
  {
    if n == 0 then 1.0 else NatPow(x, n - 1) * x
  }

  lemma {:induction false} NatPowSign(x: real, n: nat)
    ensures x != 0.0 ==> NatPow(x, n) != 0.0
    ensures 0.0 < x ==> 0.0 < NatPow(x, n)
  {
    if n > 0 {
      NatPowSign(x, n - 1);
      var p := NatPow(x, n - 1);
      assert NatPow(x, n) == p * x;
      assert x != 0.0 && p != 0.0 ==> p * x != 0.0;
      assert 0.0 < x && 0.0 < p ==> 0.0 < p * x;
    }
  }

  lemma NatPowUnfold(x: real, n: nat)
    requires n > 0
    ensures NatPow(x, n) == NatPow(x, n - 1) * x
  {
  }

  lemma MulStep(a: real, b: real, c: real, x: real, bx: real, cx: real)
    requires a * b == c && bx == b * x && cx == c * x
    ensures a * bx == cx
  {
    assert a * bx == a * (b * x);
    assert a * (b * x) == (a * b) * x;
  }

  /** x^m · x^n = x^k for k = m + n. */
  lemma {:induction false} NatPowAdd(x: real, m: nat, n: nat, k: nat)
    requires k == m + n
    ensures NatPow(x, m) * NatPow(x, n) == NatPow(x, k)
  {
    if n == 0 {
      assert NatPow(x, n) == 1.0;
      assert NatPow(x, m) * 1.0 == NatPow(x, m);
    } else {
      NatPowAdd(x, m, n - 1, k - 1);
      NatPowUnfold(x, n);
      NatPowUnfold(x, k);
      MulStep(NatPow(x, m), NatPow(x, n - 1), NatPow(x, k - 1), x, NatPow(x, n), NatPow(x, k));
    }
  }

  /** `Math.pow(x, n)` for an integer exponent and a nonzero base. */
  function Power(x: real, n: int): real
    requires x != 0.0
  {
    NatPowSign(x, if n >= 0 then n else -n);
    if n >= 0 then NatPow(x, n) else 1.0 / NatPow(x, -n)
  }

  /** A nonzero base gives a nonzero power; a positive base a positive one. */
  lemma PowerSign(x: real, n: int)
    requires x != 0.0
    ensures Power(x, n) != 0.0
    ensures 0.0 < x ==> 0.0 < Power(x, n)
  {
    NatPowSign(x, if n >= 0 then n else -n);
    if n < 0 {
      var p := NatPow(x, -n);
      assert p != 0.0;
      assert (1.0 / p) * p == 1.0;
    }
  }

  /** The product of a sequence, multiplied left to right. */
  function Product(xs: seq<real>): real
    decreases |xs|
  {
    if xs == [] then 1.0 else Product(xs[..|xs| - 1]) * xs[|xs| - 1]
  }

  lemma ProductSnoc(xs: seq<real>, i: nat)
    requires i < |xs|
    ensures Product(xs[..i + 1]) == Product(xs[..i]) * xs[i]
  {
    assert xs[..i + 1][..i] == xs[..i];
  }

  lemma {:induction false} ProductSign(xs: seq<real>)
    ensures (forall i :: 0 <= i < |xs| ==> xs[i] != 0.0) ==> Product(xs) != 0.0
    ensures (forall i :: 0 <= i < |xs| ==> 0.0 < xs[i]) ==> 0.0 < Product(xs)
    decreases |xs|
  {
    if xs != [] {
      var init := xs[..|xs| - 1];
      assert forall i :: 0 <= i < |init| ==> init[i] == xs[i];
      ProductSign(init);
      var p, x := Product(init), xs[|xs| - 1];
      assert Product(xs) == p * x;
      assert p != 0.0 && x != 0.0 ==> p * x != 0.0;
      assert 0.0 < p && 0.0 < x ==> 0.0 < p * x;
    }
  }

  /** 10^z = 10^x · 10^y for z = x + y. */
  lemma Pow10Add(f: Fns, x: real, y: real, z: real)
    requires Pow10Laws(f) && x + y == z
    ensures f.pow10(z) == f.pow10(x) * f.pow10(y)
  {
    assert SumOf(x, y, z);
  }

  lemma Pow10Zero(f: Fns)
    requires Pow10Laws(f)
    ensures f.pow10(0.0) == 1.0
  {
    Pow10Add(f, 0.0, 0.0, 0.0);
    var p := f.pow10(0.0);
    assert 0.0 < p && p == p * p;
    assert p * (p - 1.0) == 0.0;
  }

  /** 10^a raised to an integer power n is 10^(a·n). */
  lemma {:induction false} Pow10NatPow(f: Fns, a: real, n: nat)
    requires Pow10Laws(f)
    ensures NatPow(f.pow10(a), n) == f.pow10(a * n as real)
  {
    if n == 0 {
      Pow10Zero(f);
      ZeroTimes(a, n as real);
    } else {
      var k: nat := n - 1;
      Pow10NatPow(f, a, k);
      SuccTimes(a, n);
      Pow10Add(f, a * k as real, a, a * n as real);
    }
  }

  lemma ZeroTimes(a: real, z: real)
    requires z == 0.0
    ensures a * z == 0.0
  {
  }

  lemma SuccTimes(a: real, n: nat)
    requires n > 0
    ensures var k: nat := n - 1; a * k as real + a == a * n as real
  {
  }

  lemma NegTimes(a: real, n: int, m: nat)
    requires m == -n
    ensures a * m as real + a * n as real == 0.0
  {
  }

  lemma Pow10Opposite(f: Fns, v: real)
    requires Pow10Laws(f)
    ensures f.pow10(-v) * f.pow10(v) == 1.0
  {
    Pow10Add(f, -v, v, 0.0);
    Pow10Zero(f);
  }

  lemma Pow10Power(f: Fns, a: real, n: int)
    requires Pow10Laws(f)
    ensures f.pow10(a) != 0.0 && Power(f.pow10(a), n) == f.pow10(a * n as real)
  {
    var x := f.pow10(a);
    assert x > 0.0;
    if n >= 0 {
      Pow10NatPow(f, a, n);
    } else {
      var m: nat := -n;
      var v := a * n as real;
      Pow10NatPow(f, a, m);
      NegTimes(a, n, m);
      Pow10Add(f, a * m as real, v, 0.0);
      Pow10Zero(f);
      var p, q := f.pow10(a * m as real), f.pow10(v);
      assert Power(x, n) == 1.0 / NatPow(x, m);
      assert p * q == 1.0 && p > 0.0;
      assert 1.0 / p == q;
    }
  }
}
