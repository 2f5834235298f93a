/** The numeric, colour and chemical-formula helpers of the shared utility object. */
module Utils {
  import opened Wrappers
  import opened Strings

  /** `Math.min(Math.max(value, lo), hi)`. */
  function Clamp(value: real, lo: real, hi: real): (r: real)
    ensures lo <= hi ==> lo <= r <= hi
    ensures lo <= value <= hi ==> r == value
    ensures lo <= hi && value < lo ==> r == lo
    ensures lo <= hi && hi < value ==> r == hi
  {
    var m := if value > lo then value else lo;
    if m < hi then m else hi
  }

  lemma ClampMonotone(x: real, y: real, lo: real, hi: real)
    requires x <= y
    ensures Clamp(x, lo, hi) <= Clamp(y, lo, hi)
  {
  }

  /** Multiplying by a positive factor keeps strict and weak order. */
  lemma MulMonotone(a: real, x: real, y: real)
    requires 0.0 < a
    ensures x < y ==> a * x < a * y
    ensures x <= y ==> a * x <= a * y
    ensures x == y ==> a * x == a * y
  {
  }

  /** For k > 0, q/k is below, at or above 1 as q is below, at or above k. */
  lemma RatioVersusOne(q: real, k: real)
    requires 0.0 < k
    ensures q < k <==> q / k < 1.0
    ensures q > k <==> q / k > 1.0
    ensures q == k <==> q / k == 1.0
    ensures 0.0 < q ==> 0.0 < q / k
  {
    var r := q / k;
    assert r * k == q;
    MulMonotone(k, r, 1.0);
    MulMonotone(k, 1.0, r);
    MulMonotone(k, 0.0, r);
  }

  /** Linear interpolation between start (t = 0) and end (t = 1). */
  function Lerp(start: real, end: real, t: real): (r: real)
    ensures t == 0.0 ==> r == start
    ensures t == 1.0 ==> r == end
    ensures 0.0 <= t <= 1.0 && start <= end ==> start <= r <= end
  {
    var d := end - start;
    ScaleFacts(t, d);
    start + d * t
  }

  /** Facts about t·d and d·t that the solver does not find unaided. */
  lemma ScaleFacts(t: real, d: real)
    ensures d * t == t * d
    ensures t == 0.0 ==> d * t == 0.0
    ensures t == 1.0 ==> d * t == d
    ensures 0.0 <= d && 0.0 <= t <= 1.0 ==> 0.0 <= d * t <= d
    ensures 0.0 < d && 0.0 <= t < 1.0 ==> 0.0 <= d * t < d
    ensures 0.0 < d && 0.0 <= t < 1.0 ==> 0.0 <= t * d < d
  {
  }

  /** A draw r in [0, 1) scales a positive width d to a part of it in [0, d). */
  function Scaled(r: real, d: real): (p: real)
    ensures 0.0 < d && 0.0 <= r < 1.0 ==> 0.0 <= p < d
  {
    DrawBelow(r, d);
    r * d
  }

  lemma DrawBelow(r: real, d: real)
    ensures 0.0 < d && 0.0 <= r < 1.0 ==> 0.0 <= r * d < d
  {
    if 0.0 < d && 0.0 <= r < 1.0 {
      MulMonotone(d, 0.0, r);
      MulMonotone(d, r, 1.0);
      assert r * d == d * r;
    }
  }

  /** `Math.random() * (max - min) + min` for the draw r. */
  function Random(min: real, max: real, r: real): (v: real)
    ensures min < max && 0.0 <= r < 1.0 ==> min <= v < max
  {
    Scaled(r, max - min) + min
  }

  /** `Math.round`: the nearest integer, halves rounded up. */
  function Round(x: real): (r: int)
    ensures x - 0.5 < r as real <= x + 0.5
  {
    (x + 0.5).Floor
  }

  /** `percentage(value, total)`: 0 for a zero total, otherwise the rounded percentage. */
  function Percentage(value: real, total: real): (r: int)
    ensures total == 0.0 ==> r == 0
    ensures 0.0 <= value <= total && total != 0.0 ==> 0 <= r <= 100
  {
    if total == 0.0 then 0
    else
      var fraction := value / total;
      FractionWithin(value, total);
      ScaleFacts(fraction, 100.0);
      Round(fraction * 100.0)
  }

  lemma FractionWithin(value: real, total: real)
    requires total != 0.0
    ensures 0.0 <= value <= total ==> 0.0 <= value / total <= 1.0
  {
    if 0.0 <= value <= total {
      assert value / total * total == value;
    }
  }

  // ---------------------------------------------------------------- colours

  datatype Rgb = Rgb(r: int, g: int, b: int)

  predicate IsSixHex(s: string)
  {
    |s| == 6 && forall i :: 0 <= i < 6 ==> IsHexDigit(s[i])
  }

  function HexByte(s: string, i: nat): (v: nat)
    requires i + 1 < |s| && IsHexDigit(s[i]) && IsHexDigit(s[i + 1])
    ensures v <= 255
  {
    HexVal(s[i]) * 16 + HexVal(s[i + 1])
  }

  /**
   * `hexToRgb`: an optional '#' followed by exactly six hexadecimal digits of either
   * case; anything else gives null.
   */
  function HexToRgb(hex: string): (c: Option<Rgb>)
    ensures c.Some? <==> IsSixHex(hex) || (|hex| == 7 && hex[0] == '#' && IsSixHex(hex[1..]))
    ensures c.Some? ==> 0 <= c.value.r <= 255 && 0 <= c.value.g <= 255 && 0 <= c.value.b <= 255
  {
    var body := if |hex| > 0 && hex[0] == '#' then hex[1..] else hex;
    if IsSixHex(body) then Some(Rgb(HexByte(body, 0), HexByte(body, 2), HexByte(body, 4)))
    else None
  }

  predicate IsLowerHexDigit(c: char) { IsDigit(c) || 'a' <= c <= 'f' }

  function HexDigitChar(d: nat): (c: char)
    requires d < 16
    ensures IsLowerHexDigit(c) && IsHexDigit(c) && HexVal(c) == d
  {
    if d < 10 then ('0' as int + d) as char else ('a' as int + d - 10) as char
  }

  /** `n.toString(16)` for a natural number. */
  function NatToHex(n: nat): (s: string)
    ensures |s| > 0 && forall i :: 0 <= i < |s| ==> IsLowerHexDigit(s[i])
  {
    if n < 16 then [HexDigitChar(n)] else NatToHex(n / 16) + [HexDigitChar(n % 16)]
  }

  /** `x.toString(16)` for an integer. */
  function IntToHex(x: int): string
  {
    if x < 0 then "-" + NatToHex(-x) else NatToHex(x)
  }

  function PadHex(h: string): string
  {
    if |h| == 1 then "0" + h else h
  }

  /** `rgbToHex`: '#' followed by each component in base 16, padded to two digits. */
  function RgbToHex(r: int, g: int, b: int): string
  {
    "#" + PadHex(IntToHex(r)) + PadHex(IntToHex(g)) + PadHex(IntToHex(b))
  }

  /** For components in 0..255 the colour is '#' and six lower-case hexadecimal digits. */
  lemma RgbToHexShape(r: int, g: int, b: int)
    requires 0 <= r <= 255 && 0 <= g <= 255 && 0 <= b <= 255
    ensures var s := RgbToHex(r, g, b);
      |s| == 7 && s[0] == '#' && forall i :: 1 <= i < 7 ==> IsLowerHexDigit(s[i])
  {
    ByteHex(r); ByteHex(g); ByteHex(b);
  }

  lemma ByteHex(x: int)
    requires 0 <= x <= 255
    ensures PadHex(IntToHex(x)) == [HexDigitChar(x / 16), HexDigitChar(x % 16)]
  {
    if x >= 16 {
      assert NatToHex(x / 16) == [HexDigitChar(x / 16)];
    }
  }

  /** Reading back a colour written by rgbToHex gives the same components. */
  lemma HexRoundTrip(r: int, g: int, b: int)
    requires 0 <= r <= 255 && 0 <= g <= 255 && 0 <= b <= 255
    ensures HexToRgb(RgbToHex(r, g, b)) == Some(Rgb(r, g, b))
  {
    ByteHex(r); ByteHex(g); ByteHex(b);
    var s := RgbToHex(r, g, b);
    assert s == ['#', HexDigitChar(r / 16), HexDigitChar(r % 16), HexDigitChar(g / 16),
                 HexDigitChar(g % 16), HexDigitChar(b / 16), HexDigitChar(b % 16)];
    var body := s[1..];
    assert IsSixHex(body);
    assert HexByte(body, 0) == r && HexByte(body, 2) == g && HexByte(body, 4) == b;
  }

  // ---------------------------------------------------------------- formulas

  datatype ElementCount = ElementCount(element: string, count: nat)

  /** An element symbol as the formula regex captures it: an upper-case letter and an optional lower-case one. */
  predicate IsSymbol(e: string)
  {
    (|e| == 1 && IsUpper(e[0])) || (|e| == 2 && IsUpper(e[0]) && IsLower(e[1]))
  }

  /** Where the symbol starting at the upper-case letter s[i] ends: one letter, or two with a lower-case one. */
  function SymbolEnd(s: string, i: nat): (k: nat)
    requires i < |s| && IsUpper(s[i])
    ensures i < k <= |s| && IsSymbol(s[i..k])
  {
    if i + 1 < |s| && IsLower(s[i + 1]) then i + 2 else i + 1
  }

  /**
   * What `/([A-Z][a-z]?)(\d*)/g` finds in s from index i on, left to right: every upper-case
   * letter starts a match, characters before it are skipped, and the count is the following
   * digits (1 when there are none).
   */
  function ElementsFrom(s: string, i: nat): seq<ElementCount>
    requires i <= |s|
    decreases |s| - i
  {
    if i == |s| then []
    else if IsUpper(s[i]) then
      var k := SymbolEnd(s, i);
      var j := k + DigitRun(s[k..]);
      DigitRunSlice(s, k);
      [ElementCount(s[i..k], if j == k then 1 else DigitsValue(s[k..j]))] + ElementsFrom(s, j)
    else ElementsFrom(s, i + 1)
  }

  /** Every match in the whole formula. */
  function Elements(s: string): seq<ElementCount>
  {
    ElementsFrom(s, 0)
  }

  /** Every match names an element symbol. */
  lemma {:induction false} ElementsAreSymbols(s: string, i: nat)
    requires i <= |s|
    ensures forall x :: 0 <= x < |ElementsFrom(s, i)| ==> IsSymbol(ElementsFrom(s, i)[x].element)
    decreases |s| - i
  {
    if i < |s| {
      if IsUpper(s[i]) {
        var k := SymbolEnd(s, i);
        DigitRunSlice(s, k);
        ElementsAreSymbols(s, k + DigitRun(s[k..]));
      } else {
        ElementsAreSymbols(s, i + 1);
      }
    }
  }

  /** The digit run read from index k, as positions of s. */
  lemma DigitRunSlice(s: string, k: nat)
    requires k <= |s|
    ensures k + DigitRun(s[k..]) <= |s| && AllDigits(s[k..k + DigitRun(s[k..])])
  {
    assert s[k..][..DigitRun(s[k..])] == s[k..k + DigitRun(s[k..])];
  }

  /** One match: the symbol at s[i], then its count, then the matches after its digits. */
  lemma ElementsMatch(s: string, i: nat, k: nat, j: nat)
    requires i < |s| && IsUpper(s[i]) && k == SymbolEnd(s, i)
    requires j == k + DigitRun(s[k..]) && j <= |s| && AllDigits(s[k..j])
    ensures ElementsFrom(s, i) == [ElementCount(s[i..k], if j == k then 1 else DigitsValue(s[k..j]))] + ElementsFrom(s, j)
  {
    var head := ElementCount(s[i..k], if j == k then 1 else DigitsValue(s[k..j]));
    assert ElementsFrom(s, i) == [head] + ElementsFrom(s, j);
  }

  /** A character that starts no symbol is skipped. */
  lemma ElementsSkip(s: string, i: nat)
    requires i < |s| && !IsUpper(s[i])
    ensures ElementsFrom(s, i) == ElementsFrom(s, i + 1)
  {
  }

  lemma ElementsWater(w: string)
    requires w == "H2O"
    ensures Elements(w) == [ElementCount("H", 2), ElementCount("O", 1)]
  {
    WaterOxygen(w);
    assert w[0..1] == "H" && w[1..] == "2O" && w[1..2] == "2";
    assert DigitRun(w[1..]) == 1;
    assert DigitsValue(w[1..2]) == 2 by { assert w[1..2][..0] == []; }
    ElementsMatch(w, 0, 1, 2);
  }

  /** The last match of "H2O". */
  lemma WaterOxygen(w: string)
    requires w == "H2O"
    ensures ElementsFrom(w, 2) == [ElementCount("O", 1)]
  {
    assert w[2..3] == "O" && w[3..] == [];
    assert DigitRun(w[3..]) == 0;
    ElementsMatch(w, 2, 3, 3);
  }

  /** The parenthesised group's multiplier is dropped: "Fe(OH)3" counts one O and one H. */
  lemma ElementsIronHydroxide(f: string)
    requires f == "Fe(OH)3"
    ensures Elements(f) == [ElementCount("Fe", 1), ElementCount("O", 1), ElementCount("H", 1)]
  {
    HydroxideGroup(f);
    assert f[0..2] == "Fe" && f[2..] == "(OH)3";
    assert DigitRun(f[2..]) == 0;
    ElementsMatch(f, 0, 2, 2);
    ElementsSkip(f, 2);
  }

  /** The matches inside and after the group of "Fe(OH)3". */
  lemma HydroxideGroup(f: string)
    requires f == "Fe(OH)3"
    ensures ElementsFrom(f, 3) == [ElementCount("O", 1), ElementCount("H", 1)]
  {
    assert f[3..4] == "O" && f[4..5] == "H" && f[4..] == "H)3" && f[5..] == ")3";
    assert DigitRun(f[4..]) == 0 && DigitRun(f[5..]) == 0;
    ElementsSkip(f, 6);
    ElementsSkip(f, 5);
    ElementsMatch(f, 4, 5, 5);
    ElementsMatch(f, 3, 4, 4);
  }

  /** Reads the digit run of s starting at i, as the regex's `(\d*)` group and `parseInt` do. */
  method ReadDigits(s: string, i: nat) returns (j: nat, value: nat)
    requires i <= |s|
    ensures i <= j <= |s| && AllDigits(s[i..j])
    ensures j == i + DigitRun(s[i..]) && value == DigitsValue(s[i..j])
  {
    j, value := i, 0;
    while j < |s| && IsDigit(s[j])
      invariant i <= j <= |s| && AllDigits(s[i..j]) && value == DigitsValue(s[i..j])
    {
      DigitsValueStep(s, i, j);
      value := value * 10 + DigitVal(s[j]);
      j := j + 1;
    }
    assert s[i..][..j - i] == s[i..j];
    DigitRunIs(s[i..], j - i);
  }

  /** One more digit: the run stays all digits and its value gains that digit in the units place. */
  lemma DigitsValueStep(s: string, i: nat, j: nat)
    requires i <= j < |s| && AllDigits(s[i..j]) && IsDigit(s[j])
    ensures AllDigits(s[i..j + 1])
    ensures DigitsValue(s[i..j + 1]) == DigitsValue(s[i..j]) * 10 + DigitVal(s[j])
  {
    assert s[i..j + 1] == s[i..j] + [s[j]];
    assert s[i..j + 1][..j - i] == s[i..j];
  }

  lemma DigitRunIs(s: string, n: nat)
    requires n <= |s| && AllDigits(s[..n]) && (n < |s| ==> !IsDigit(s[n]))
    ensures DigitRun(s) == n
  {
    if n > 0 {
      assert s[1..][..n - 1] == s[..n][1..];
      DigitRunIs(s[1..], n - 1);
    }
  }

  /** `parseChemicalFormula`: the regex matches collected in a while loop. */
  method ParseChemicalFormula(formula: string) returns (elements: seq<ElementCount>)
    ensures elements == Elements(formula)
  {
    elements := [];
    var i := 0;
    while i < |formula|
      invariant 0 <= i <= |formula|
      invariant elements + ElementsFrom(formula, i) == Elements(formula)
      decreases |formula| - i
    {
      if IsUpper(formula[i]) {
        var k := SymbolEnd(formula, i);
        var j, value := ReadDigits(formula, k);
        ElementsMatch(formula, i, k, j);
        var found := ElementCount(formula[i..k], if j == k then 1 else value);
        assert elements + [found] + ElementsFrom(formula, j) == elements + ([found] + ElementsFrom(formula, j));
        elements := elements + [found];
        i := j;
      } else {
        ElementsSkip(formula, i);
        i := i + 1;
      }
    }
  }

  /** The `(\d+)` → `<sub>$1</sub>` rewrite. */
  function WrapDigits(s: string): string
    decreases |s|
  {
    if s == [] then []
    else if IsDigit(s[0]) then
      var n := DigitRun(s);
      "<sub>" + s[..n] + "</sub>" + WrapDigits(s[n..])
    else [s[0]] + WrapDigits(s[1..])
  }

  /** Replaces every occurrence of the character c by rep. */
  function ReplaceChar(s: string, c: char, rep: string): string
  {
    if s == [] then [] else (if s[0] == c then rep else [s[0]]) + ReplaceChar(s[1..], c, rep)
  }

  /** The `\)(\d+)` → `)<sub>$1</sub>` rewrite. */
  function WrapParenDigits(s: string): string
    decreases |s|
  {
    if s == [] then []
    else if s[0] == ')' && |s| > 1 && IsDigit(s[1]) then
      var n := DigitRun(s[1..]);
      ")<sub>" + s[1..1 + n] + "</sub>" + WrapParenDigits(s[1 + n..])
    else [s[0]] + WrapParenDigits(s[1..])
  }

  /** `formatChemical`: digits become subscripts and charges superscripts, in four rewrites. */
  function FormatChemical(formula: string): string
  {
    WrapParenDigits(ReplaceChar(ReplaceChar(WrapDigits(formula), '+', "<sup>+</sup>"), '-', "<sup>-</sup>"))
  }

  /** No ')' is directly followed by a digit. */
  predicate NoParenDigit(s: string)
  {
    forall i :: 0 <= i < |s| - 1 ==> !(s[i] == ')' && IsDigit(s[i + 1]))
  }

  lemma NoParenDigitConcat(a: string, b: string)
    requires NoParenDigit(a) && NoParenDigit(b)
    requires a != [] && b != [] ==> !(a[|a| - 1] == ')' && IsDigit(b[0]))
    ensures NoParenDigit(a + b)
  {
    var s := a + b;
    forall i | 0 <= i < |s| - 1 ensures !(s[i] == ')' && IsDigit(s[i + 1])) {
      if i + 1 < |a| {
        assert s[i] == a[i] && s[i + 1] == a[i + 1];
      } else if i + 1 == |a| {
        assert s[i] == a[|a| - 1] && s[i + 1] == b[0];
      } else {
        assert s[i] == b[i - |a|] && s[i + 1] == b[i - |a| + 1];
      }
    }
  }

  lemma {:induction false} WrapDigitsShape(s: string)
    ensures NoParenDigit(WrapDigits(s))
    ensures WrapDigits(s) != [] ==> !IsDigit(WrapDigits(s)[0])
    decreases |s|
  {
    if s == [] {
    } else if IsDigit(s[0]) {
      var n := DigitRun(s);
      var head := "<sub>" + s[..n] + "</sub>";
      assert NoParenDigit(head) by {
        assert forall i :: 0 <= i < |head| ==> head[i] != ')';
      }
      WrapDigitsShape(s[n..]);
      NoParenDigitConcat(head, WrapDigits(s[n..]));
      assert WrapDigits(s) == head + WrapDigits(s[n..]);
    } else {
      WrapDigitsShape(s[1..]);
      NoParenDigitConcat([s[0]], WrapDigits(s[1..]));
      assert WrapDigits(s) == [s[0]] + WrapDigits(s[1..]);
    }
  }

  lemma {:induction false} ReplaceCharShape(s: string, c: char, rep: string)
    requires NoParenDigit(s) && !IsDigit(c)
    requires rep != [] && !IsDigit(rep[0]) && forall i :: 0 <= i < |rep| ==> rep[i] != ')'
    ensures NoParenDigit(ReplaceChar(s, c, rep))
    ensures ReplaceChar(s, c, rep) != [] ==> !IsDigit(ReplaceChar(s, c, rep)[0]) || (s != [] && s[0] != c && ReplaceChar(s, c, rep)[0] == s[0])
  {
    if s != [] {
      var piece := if s[0] == c then rep else [s[0]];
      var tail := ReplaceChar(s[1..], c, rep);
      assert NoParenDigit(s[1..]) by {
        forall i | 0 <= i < |s[1..]| - 1 ensures !(s[1..][i] == ')' && IsDigit(s[1..][i + 1])) {
          assert s[1..][i] == s[i + 1] && s[1..][i + 1] == s[i + 2];
        }
      }
      ReplaceCharShape(s[1..], c, rep);
      assert NoParenDigit(piece) by {
        if s[0] == c {
          assert forall i :: 0 <= i < |piece| ==> piece[i] != ')';
        }
      }
      if piece != [] && tail != [] && piece[|piece| - 1] == ')' {
        assert s[0] == ')' && |s| > 1;
        assert s[1] != c ==> !IsDigit(s[1]) by { assert !(s[0] == ')' && IsDigit(s[1])); }
      }
      NoParenDigitConcat(piece, tail);
    }
  }

  lemma {:induction false} WrapParenDigitsIdentity(s: string)
    requires NoParenDigit(s)
    ensures WrapParenDigits(s) == s
    decreases |s|
  {
    if s != [] {
      assert !(s[0] == ')' && |s| > 1 && IsDigit(s[1]));
      assert NoParenDigit(s[1..]) by {
        forall i | 0 <= i < |s[1..]| - 1 ensures !(s[1..][i] == ')' && IsDigit(s[1..][i + 1])) {
          assert s[1..][i] == s[i + 1] && s[1..][i + 1] == s[i + 2];
        }
      }
      WrapParenDigitsIdentity(s[1..]);
      assert [s[0]] + s[1..] == s;
    }
  }

  /** The fourth rewrite of formatChemical never changes anything: after the first one no ')' is followed by a digit. */
  lemma FormatChemicalLastRewriteDead(formula: string)
    ensures FormatChemical(formula) == ReplaceChar(ReplaceChar(WrapDigits(formula), '+', "<sup>+</sup>"), '-', "<sup>-</sup>")
  {
    var a := WrapDigits(formula);
    WrapDigitsShape(formula);
    var plus, minus := "<sup>+</sup>", "<sup>-</sup>";
    assert forall i :: 0 <= i < |plus| ==> plus[i] != ')';
    assert forall i :: 0 <= i < |minus| ==> minus[i] != ')';
    ReplaceCharShape(a, '+', plus);
    var b := ReplaceChar(a, '+', plus);
    ReplaceCharShape(b, '-', minus);
    WrapParenDigitsIdentity(ReplaceChar(b, '-', minus));
  }

  // ---------------------------------------------------------------- random choice

  /** floor(r·n) for a draw r in [0, 1): an index below n. */
  function DrawIndex(r: real, n: nat): (j: nat)
    requires 0.0 <= r < 1.0 && n > 0
    ensures j < n
  {
    assert 0.0 <= r * n as real < n as real;
    (r * n as real).Floor
  }

  /** `randomChoice` for the draw r: the element at floor(r·length), undefined when out of range. */
  function RandomChoice<T>(s: seq<T>, r: real): (c: Option<T>)
    ensures 0.0 <= r < 1.0 && |s| > 0 ==> c.Some? && c.value in s
    ensures |s| == 0 ==> c.None?
  {
    if 0.0 <= r < 1.0 && |s| > 0 then Some(s[DrawIndex(r, |s|)])
    else
      var idx := (r * |s| as real).Floor;
      if 0 <= idx < |s| then Some(s[idx]) else None
  }

  /** `randomChoice` (and `list[Math.floor(r * list.length)]`) on a list known to be non-empty. */
  function Pick<T>(list: seq<T>, r: real): (c: T)
    requires list != [] && 0.0 <= r < 1.0
    ensures c in list && RandomChoice(list, r) == Some(c)
  {
    list[DrawIndex(r, |list|)]
  }

  /** The sequence with the entries at i and j exchanged. */
  function Swapped<T>(s: seq<T>, i: nat, j: nat): (r: seq<T>)
    requires i < |s| && j < |s|
    ensures |r| == |s| && r[i] == s[j] && r[j] == s[i]
    ensures forall k :: 0 <= k < |s| && k != i && k != j ==> r[k] == s[k]
  {
    s[i := s[j]][j := s[i]]
  }

  lemma SwapPermutes<T>(s: seq<T>, i: nat, j: nat)
    requires i < |s| && j < |s|
    ensures multiset(Swapped(s, i, j)) == multiset(s)
  {
  }

  /** `[a[i], a[j]] = [a[j], a[i]]`: the two cells exchange their values and no other cell changes. */
  method Swap<T>(a: array<T>, i: nat, j: nat)
    requires i < a.Length && j < a.Length
    modifies a
    ensures a[..] == Swapped(old(a[..]), i, j)
    ensures a[i] == old(a[j]) && a[j] == old(a[i])
    ensures forall k :: 0 <= k < a.Length && k != i && k != j ==> a[k] == old(a[k])
    ensures multiset(a[..]) == multiset(old(a[..]))
  {
    ghost var before := a[..];
    SwapPermutes(before, i, j);
    a[i], a[j] := a[j], a[i];
    assert a[..] == Swapped(before, i, j);
  }

  /** `[...array]`: a fresh array with the same elements. */
  method CopyOf<T>(a: array<T>) returns (c: array<T>)
    ensures fresh(c) && c[..] == a[..]
  {
    c := new T[a.Length](k requires 0 <= k < a.Length reads a => a[k]);
  }

  /** The draws are probabilities, one for every index from |s| - 1 down to 1. */
  predicate ShuffleDraws(n: nat, draws: seq<real>)
  {
    |draws| + 1 >= n && forall k :: 0 <= k < |draws| ==> 0.0 <= draws[k] < 1.0
  }

  /** The index each step swaps with: floor(draws[n - 1 - i] · (i + 1)) for index i, at most i. */
  function ShuffleIndices(n: nat, draws: seq<real>): (idx: seq<nat>)
    requires ShuffleDraws(n, draws)
    ensures |idx| == n && Below(idx)
  {
    seq(n, i requires 0 <= i < n => if i == 0 then 0 else DrawIndex(draws[n - 1 - i], i + 1))
  }

  /** Every step index is at most its own position. */
  predicate Below(idx: seq<nat>)
  {
    forall i :: 0 <= i < |idx| ==> idx[i] <= i
  }

  /** The Fisher–Yates steps for the positions i down to 1: position i swaps with idx[i]. */
  function ShuffleFrom<T>(s: seq<T>, idx: seq<nat>, i: int): (r: seq<T>)
    requires |idx| == |s| && Below(idx) && -1 <= i < |s|
    ensures |r| == |s|
    decreases i + 1
  {
    if i <= 0 then s else ShuffleFrom(Swapped(s, i, idx[i]), idx, i - 1)
  }

  /** Every step is a swap, so the steps only rearrange the elements. */
  lemma {:induction false} ShuffleFromPermutes<T>(s: seq<T>, idx: seq<nat>, i: int)
    requires |idx| == |s| && Below(idx) && -1 <= i < |s|
    ensures multiset(ShuffleFrom(s, idx, i)) == multiset(s)
    decreases i + 1
  {
    if i > 0 {
      SwapPermutes(s, i, idx[i]);
      ShuffleFromPermutes(Swapped(s, i, idx[i]), idx, i - 1);
    }
  }

  /** The shuffle of a whole sequence. */
  function Shuffled<T>(s: seq<T>, draws: seq<real>): (r: seq<T>)
    requires ShuffleDraws(|s|, draws)
    ensures |r| == |s| && multiset(r) == multiset(s)
  {
    var idx := ShuffleIndices(|s|, draws);
    ShuffleFromPermutes(s, idx, |s| - 1);
    ShuffleFrom(s, idx, |s| - 1)
  }

  /** The loop of `shuffle`, in place: from the last index down to 1, the draw for index i being draws[length - 1 - i]. */
  method ShuffleInPlace<T>(a: array<T>, draws: seq<real>)
    requires ShuffleDraws(a.Length, draws)
    modifies a
    ensures a[..] == Shuffled(old(a[..]), draws)
  {
    ghost var idx := ShuffleIndices(a.Length, draws);
    ghost var target := ShuffleFrom(a[..], idx, a.Length - 1);
    var i := a.Length - 1;
    while i > 0
      invariant -1 <= i < a.Length
      invariant ShuffleFrom(a[..], idx, i) == target
    {
      var j := DrawIndex(draws[a.Length - 1 - i], i + 1);
      assert j == idx[i];
      Swap(a, i, j);
      i := i - 1;
    }
  }

  /** `shuffle`: Fisher–Yates on a fresh copy; the input array is not changed. */
  method Shuffle<T>(a: array<T>, draws: seq<real>) returns (result: array<T>)
    requires ShuffleDraws(a.Length, draws)
    ensures fresh(result)
    ensures result[..] == Shuffled(a[..], draws)
    ensures multiset(result[..]) == multiset(a[..])
  {
    result := CopyOf(a);
    ShuffleInPlace(result, draws);
  }
}
