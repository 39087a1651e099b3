/**
 * Numbers as text: `Number.prototype.toString` for whole numbers and for
 * tenths, `toFixed(1)`, and the `parseFloat` that turns a saved reading
 * back into a number.
 */
module Numbers {
  import opened Optional
  import opened Text

  predicate IsDigit(c: char) {
    '0' <= c <= '9'
  }

  predicate AllDigits(s: string) {
    forall i :: 0 <= i < |s| ==> IsDigit(s[i])
  }

  function DigitChar(d: nat): (c: char)
    requires d < 10
    ensures IsDigit(c)
  {
    ('0' as int + d) as char
  }

  function DigitValue(c: char): (d: nat)
    requires IsDigit(c)
    ensures d < 10
  {
    c as int - '0' as int
  }

  /** The value of a run of decimal digits, most significant first. */
  function DigitsValue(ds: string): nat
    requires AllDigits(ds)
  {
    if ds == [] then 0 else DigitsValue(ds[..|ds| - 1]) * 10 + DigitValue(ds[|ds| - 1])
  }

  /** The same value computed in the reals, as `parseFloat` accumulates it. */
  function DigitsReal(ds: string): (r: real)
    requires AllDigits(ds)
    ensures r >= 0.0
  {
    if ds == [] then 0.0 else DigitsReal(ds[..|ds| - 1]) * 10.0 + DigitValue(ds[|ds| - 1]) as real
  }

  lemma {:induction false} DigitsRealValue(ds: string)
    requires AllDigits(ds)
    ensures DigitsReal(ds) == DigitsValue(ds) as real
  {
    if ds != [] {
      DigitsRealValue(ds[..|ds| - 1]);
    }
  }

  /** `n.toString()` for a whole number `n >= 0`. */
  function NatToString(n: nat): (r: string)
    ensures r != "" && AllDigits(r)
  {
    if n < 10 then [DigitChar(n)] else NatToString(n / 10) + [DigitChar(n % 10)]
  }

  lemma {:induction false} NatToStringValue(n: nat)
    ensures DigitsValue(NatToString(n)) == n
  {
    var r := NatToString(n);
    if n >= 10 {
      NatToStringValue(n / 10);
      assert r[..|r| - 1] == NatToString(n / 10);
    }
  }

  /** Where the run of digits that starts at index `i` of `s` ends. */
  function DigitsEnd(s: string, i: nat): (k: nat)
    requires i <= |s|
    ensures i <= k <= |s|
    ensures forall j :: i <= j < k ==> IsDigit(s[j])
    ensures k < |s| ==> !IsDigit(s[k])
    decreases |s| - i
  {
    if i < |s| && IsDigit(s[i]) then DigitsEnd(s, i + 1) else i
  }

  /** A run of digits from `i` up to a non-digit (or the end) at `k` ends at `k`. */
  lemma {:induction false} DigitsEndAt(s: string, i: nat, k: nat)
    requires i <= k <= |s|
    requires forall j :: i <= j < k ==> IsDigit(s[j])
    requires k == |s| || !IsDigit(s[k])
    ensures DigitsEnd(s, i) == k
    decreases k - i
  {
    if i < k {
      DigitsEndAt(s, i + 1, k);
    }
  }

  /** The value of the digits after a decimal point. */
  function FractionValue(ds: string): (r: real)
    requires AllDigits(ds)
    ensures 0.0 <= r <= 1.0
  {
    if ds == [] then 0.0 else (DigitValue(ds[0]) as real + FractionValue(ds[1..])) / 10.0
  }

  /** The digits of `s` after a decimal point at index `k`; none when there is no point there. */
  function FractionDigits(s: string, k: nat): (f: string)
    requires k <= |s|
    ensures AllDigits(f)
  {
    if k < |s| && s[k] == '.' then s[k + 1..DigitsEnd(s, k + 1)] else ""
  }

  /** The longest unsigned decimal prefix `digits [. digits]` of `s`, if it has a digit. */
  function ParseUnsigned(s: string): (r: Option<real>)
    ensures r.Some? ==> r.value >= 0.0
  {
    var k := DigitsEnd(s, 0);
    var whole, fraction := s[..k], FractionDigits(s, k);
    if whole == "" && fraction == "" then None
    else Some(DigitsReal(whole) + FractionValue(fraction))
  }

  /**
   * `parseFloat(s)`: skip leading white space, read an optional sign, then
   * the longest decimal prefix `digits [. digits]` with at least one digit;
   * `None` stands for `NaN`.
   */
  function ParseFloat(s: string): Option<real> {
    var t := TrimStart(s);
    if t != [] && t[0] == '-' then
      match ParseUnsigned(t[1..])
      case None => None
      case Some(m) => Some(-m)
    else if t != [] && t[0] == '+' then ParseUnsigned(t[1..])
    else ParseUnsigned(t)
  }

  lemma ParseFloatOfDigitStart(s: string)
    requires s != [] && IsDigit(s[0])
    ensures ParseFloat(s) == ParseUnsigned(s)
  {
    assert !IsWhitespace(s[0]);
    TrimStartKeeps(s);
  }

  lemma ParseFloatNat(n: nat)
    ensures ParseFloat(NatToString(n)) == Some(n as real)
  {
    var s := NatToString(n);
    ParseFloatOfDigitStart(s);
    DigitsEndAt(s, 0, |s|);
    assert s[..|s|] == s;
    NatToStringValue(n);
    DigitsRealValue(s);
  }

  /** `(n / 10).toString()`: a whole number prints without a decimal point. */
  function TenthsToString(n: nat): (r: string)
  {
    if n % 10 == 0 then NatToString(n / 10) else NatToString(n / 10) + "." + [DigitChar(n % 10)]
  }

  lemma ParseUnsignedDecimal(w: string, d: nat)
    requires AllDigits(w) && w != [] && d < 10
    ensures ParseUnsigned(w + "." + [DigitChar(d)]) == Some(DigitsValue(w) as real + d as real / 10.0)
  {
    var s := w + "." + [DigitChar(d)];
    DecimalTextShape(w, d);
    DigitsEndAt(s, 0, |w|);
    DigitsEndAt(s, |w| + 1, |w| + 2);
    DigitsRealValue(w);
    FractionValueOfDigit(d);
  }

  /** The text `w.d` is `w`, a point at index `|w|` and the digit `d` after it. */
  lemma DecimalTextShape(w: string, d: nat)
    requires AllDigits(w) && d < 10
    ensures var s := w + "." + [DigitChar(d)];
      && |s| == |w| + 2 && s[..|w|] == w && s[|w|] == '.' && s[|w| + 1..|w| + 2] == [DigitChar(d)]
      && (forall j :: 0 <= j < |w| ==> IsDigit(s[j])) && IsDigit(s[|w| + 1])
  {
    var s := w + "." + [DigitChar(d)];
    assert s[..|w|] == w;
    assert s[|w| + 1..|w| + 2] == [DigitChar(d)];
  }

  lemma FractionValueOfDigit(d: nat)
    requires d < 10
    ensures FractionValue([DigitChar(d)]) == d as real / 10.0
  {
    assert [DigitChar(d)][1..] == [];
  }

  /** Tenths `n = 10 q + d` are `q + d / 10` as a real. */
  lemma TenthsReal(n: nat, q: nat, d: nat)
    requires n == 10 * q + d
    ensures n as real / 10.0 == q as real + d as real / 10.0
  {
  }

  lemma ParseFloatWholeTenths(n: nat)
    requires n % 10 == 0
    ensures ParseFloat(TenthsToString(n)) == Some(n as real / 10.0)
  {
    var q := n / 10;
    assert TenthsToString(n) == NatToString(q);
    ParseFloatNat(q);
    TenthsReal(n, q, 0);
  }

  lemma ParseFloatFractionalTenths(n: nat)
    requires n % 10 != 0
    ensures ParseFloat(TenthsToString(n)) == Some(n as real / 10.0)
  {
    var q, d := n / 10, n % 10;
    ParseFloatDigitsPoint(n);
    TenthsReal(n, q, d);
  }

  /** Reading back `q.d`, the text of the tenths `n = 10 q + d`, gives `q + d / 10`. */
  lemma ParseFloatDigitsPoint(n: nat)
    requires n % 10 != 0
    ensures ParseFloat(TenthsToString(n)) == Some((n / 10) as real + (n % 10) as real / 10.0)
  {
    var w := NatToString(n / 10);
    assert TenthsToString(n) == w + "." + [DigitChar(n % 10)];
    ParseFloatDecimal(w, n % 10);
    NatToStringValue(n / 10);
  }

  lemma ParseFloatDecimal(w: string, d: nat)
    requires AllDigits(w) && w != [] && d < 10
    ensures ParseFloat(w + "." + [DigitChar(d)]) == Some(DigitsValue(w) as real + d as real / 10.0)
  {
    var s := w + "." + [DigitChar(d)];
    assert s[0] == w[0];
    ParseFloatOfDigitStart(s);
    ParseUnsignedDecimal(w, d);
  }

  /** Reading back the printed tenths gives the number that was printed. */
  lemma ParseFloatTenths(n: nat)
    ensures ParseFloat(TenthsToString(n)) == Some(n as real / 10.0)
  {
    if n % 10 == 0 {
      ParseFloatWholeTenths(n);
    } else {
      ParseFloatFractionalTenths(n);
    }
  }

  /** `x.toFixed(1)` for `x >= 0`: the nearest tenth, halves rounded up. */
  function FixedOne(x: real): (r: string)
    requires x >= 0.0
    ensures |r| >= 3 && r[|r| - 2] == '.' && IsDigit(r[|r| - 1]) && IsDigit(r[0])
  {
    var tenths := (x * 10.0 + 0.5).Floor;
    NatToString(tenths / 10) + "." + [DigitChar(tenths % 10)]
  }

  /**
   * The text `FixedOne(x)` prints reads back as the tenth `t / 10` nearest
   * to `x`: within half a tenth, halves rounded up.
   */
  lemma FixedOneValue(x: real)
    requires x >= 0.0
    ensures var t := (x * 10.0 + 0.5).Floor;
      && t >= 0
      && ParseFloat(FixedOne(x)) == Some(t as real / 10.0)
      && x - 0.05 < t as real / 10.0 <= x + 0.05
  {
    var n: nat := (x * 10.0 + 0.5).Floor;
    var w := NatToString(n / 10);
    assert FixedOne(x) == w + "." + [DigitChar(n % 10)];
    ParseFloatDecimal(w, n % 10);
    NatToStringValue(n / 10);
    TenthsReal(n, n / 10, n % 10);
  }

  /** `x.toFixed(1)` for any `x`: a negative number prints as "-" and the digits of its magnitude. */
  function ToFixed1(x: real): (r: string)
    ensures |r| >= 3 && r[|r| - 2] == '.' && IsDigit(r[|r| - 1])
    ensures (r[0] == '-') <==> x < 0.0
    ensures x < 0.0 ==> r[1..] == FixedOne(-x)
    ensures x >= 0.0 ==> r == FixedOne(x)
  {
    if x < 0.0 then "-" + FixedOne(-x) else FixedOne(x)
  }
}
