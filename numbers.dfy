/**
  The number rendering the controllers apply: `parseFloat(x.toFixed(2))`,
  percentages that may divide by zero, and the decimal text of a number.
*/
module Numbers {
  import opened Wrappers
  import opened Js

  /** `parseFloat(x.toFixed(2))`: the nearest hundredth, a tie rounding up. */
  function Round2(x: real): (r: real)
    ensures -0.005 <= x - r < 0.005
    ensures (r * 100.0).Floor as real == r * 100.0
  {
    ((x * 100.0 + 0.5).Floor as real) / 100.0
  }

  /**
    `parseFloat(((cost / amount) * 100).toFixed(2))`. A zero amount yields
    Infinity or NaN, which JSON serialises as null: None.
  */
  function Utilization(cost: real, amount: real): (r: Option<real>)
    ensures r.Some? <==> amount != 0.0
    ensures r.Some? ==> -0.005 <= cost / amount * 100.0 - r.value < 0.005
    ensures r.Some? && cost >= 0.0 && amount > 0.0 ==> r.value >= 0.0
  {
    if amount == 0.0 then None else Some(Round2(cost / amount * 100.0))
  }

  function DigitChar(d: nat): (c: char)
    requires d < 10
    ensures '0' <= c <= '9' && DigitValue(c) == d
  {
    ('0' as int + d) as char
  }

  /** The decimal digits of a natural number, without leading zeros. */
  function NatText(n: nat): (r: string)
    ensures r != [] && AllDigits(r)
    ensures |r| > 1 ==> r[0] != '0'
  {
    if n < 10 then [DigitChar(n)] else NatText(n / 10) + [DigitChar(n % 10)]
  }

  /** Reading back the digits of `NatText(n)` gives `n`. */
  lemma {:induction false} NatTextRoundTrip(n: nat)
    ensures DigitsValue(NatText(n)) == n
  {
    if n >= 10 {
      NatTextRoundTrip(n / 10);
      var s := NatText(n);
      assert s[..|s| - 1] == NatText(n / 10);
    }
  }

  /** `x.toFixed(2)` for a non-negative number. */
  function Fixed2Text(x: real): (r: string)
    requires x >= 0.0
    ensures |r| >= 4 && r[|r| - 3] == '.'
  {
    var cents := (x * 100.0 + 0.5).Floor;
    assert cents >= 0;
    NatText(cents / 100) + "." + [DigitChar((cents % 100) / 10), DigitChar(cents % 10)]
  }

  predicate IsWhole(x: real) {
    x.Floor as real == x
  }

  /** The most fraction digits `NumberText` looks for. */
  const MaxPlaces: nat := 20

  /** `x × 10^k`. */
  function Shifted(x: real, k: nat): real {
    x * Pow10(k) as real
  }

  /**
    The fewest fraction digits, counting from `k`, that `x` needs: the least
    `r` with `x × 10^r` whole, or MaxPlaces when none below it is.
  */
  function Places(x: real, k: nat): (r: nat)
    requires k <= MaxPlaces
    ensures k <= r <= MaxPlaces
    ensures r < MaxPlaces ==> IsWhole(Shifted(x, r))
    ensures forall j :: k <= j < r ==> !IsWhole(Shifted(x, j))
    decreases MaxPlaces - k
  {
    if k == MaxPlaces || IsWhole(Shifted(x, k)) then k else Places(x, k + 1)
  }

  /** `s` with zeros in front, up to length `n`. */
  function PadZeros(s: string, n: nat): (r: string)
    requires AllDigits(s)
    ensures |r| == if |s| < n then n else |s|
    ensures AllDigits(r) && DigitsValue(r) == DigitsValue(s)
    decreases n - |s|
  {
    if |s| < n then
      LeadingZero(s);
      PadZeros("0" + s, n)
    else s
  }

  /** A leading zero does not change the value of a digit string. */
  lemma {:induction false} LeadingZero(s: string)
    requires AllDigits(s)
    ensures AllDigits("0" + s) && DigitsValue("0" + s) == DigitsValue(s)
  {
    if s != [] {
      var z := "0" + s;
      assert z[..|z| - 1] == "0" + s[..|s| - 1];
      LeadingZero(s[..|s| - 1]);
    }
  }

  /**
    `String(x)` for a non-negative number: the shortest decimal form, with no
    fraction for a whole number; a number needing more than MaxPlaces fraction
    digits is rounded to MaxPlaces of them.
  */
  function NumberText(x: real): (r: string)
    requires x >= 0.0
    ensures r != [] && '0' <= r[0] <= '9'
  {
    var k := Places(x, 0);
    var n := ShiftedDigits(x, k);
    if k == 0 then NatText(n) else PointForm(n, k)
  }

  /** `n / 10^k` written with exactly `k` fraction digits. */
  function PointForm(n: nat, k: nat): (r: string)
    ensures r != [] && '0' <= r[0] <= '9'
  {
    var whole := NatText(Quotient(n, Pow10(k)));
    whole + "." + PadZeros(NatText(Remainder(n, Pow10(k))), k)
  }

  function Quotient(n: nat, p: nat): (q: nat)
    requires p >= 1
  {
    n / p
  }

  function Remainder(n: nat, p: nat): (m: nat)
    requires p >= 1
    ensures m < p && n == Quotient(n, p) * p + m
  {
    n % p
  }

  /** `x × 10^k` rounded to a whole number; exact when it is whole already. */
  function ShiftedDigits(x: real, k: nat): (n: nat)
    requires x >= 0.0
    ensures IsWhole(Shifted(x, k)) ==> n as real == Shifted(x, k)
  {
    var y := Shifted(x, k);
    assert y >= 0.0;
    RoundHalfUp(y)
  }

  /** The nearest whole number, a tie rounding up. */
  function RoundHalfUp(y: real): (n: int)
    ensures y >= 0.0 ==> n >= 0
    ensures IsWhole(y) ==> n as real == y
  {
    var n := (y + 0.5).Floor;
    assert n as real <= y + 0.5 < n as real + 1.0;
    assert IsWhole(y) ==> y.Floor as real <= y < y.Floor as real + 1.0 && n == y.Floor;
    n
  }

  /** A whole number prints as its digits alone. */
  lemma WholeNumberText(x: real)
    requires x >= 0.0 && IsWhole(x)
    ensures NumberText(x) == NatText(x.Floor)
  {
    assert Shifted(x, 0) == x;
    assert Places(x, 0) == 0;
  }

  /** A number below `10^k` has at most `k` digits. */
  lemma {:induction false} NatTextLength(m: nat, k: nat)
    requires 1 <= k && m < Pow10(k)
    ensures |NatText(m)| <= k
  {
    if m >= 10 {
      assert k >= 2;
      NatTextLength(m / 10, k - 1);
    }
  }

  /** No character of `s` is in `cs`, so the search runs to the end. */
  lemma NoneOf(s: string, cs: set<char>)
    requires forall i :: 0 <= i < |s| ==> s[i] !in cs
    ensures IndexOfAny(s, cs) == |s|
  {
  }

  /** Digits, a point and digits have no exponent marker. */
  lemma NoExponent(a: string, b: string)
    requires AllDigits(a) && AllDigits(b)
    ensures IndexOfAny(a + "." + b, {'e', 'E'}) == |a + "." + b|
  {
    var t := a + "." + b;
    assert forall i :: 0 <= i < |t| ==> t[i] == '.' || '0' <= t[i] <= '9';
    NoneOf(t, {'e', 'E'});
  }

  /** The first point of digits, a point and digits is the one after the whole part. */
  lemma PointAt(a: string, b: string)
    requires AllDigits(a)
    ensures IndexOfAny(a + "." + b, {'.'}) == |a|
  {
    var t := a + "." + b;
    assert t[|a|] == '.';
    assert forall i :: 0 <= i < |a| ==> t[i] == a[i];
  }

  /** Digits, a point and digits read as `whole.fraction`. */
  lemma PointText(a: string, b: string)
    requires a != [] && AllDigits(a) && AllDigits(b)
    ensures UnsignedDecimal(a + "." + b) == Some(DecimalValue(DigitsValue(a), DigitsValue(b), |b|, 0))
  {
    var t := a + "." + b;
    NoExponent(a, b);
    assert t[..|t|] == t;
    PointAt(a, b);
    assert t[..|a|] == a && t[|a| + 1..] == b;
  }

  /** Dividing `q × p + m = x × p` through by `p`. */
  lemma DivideOut(q: real, m: real, p: real, x: real)
    requires p > 0.0 && q * p + m == x * p
    ensures q + m / p == x
  {
    assert q + m / p == (q * p + m) / p;
  }

  /** `q.m` with `k` fraction digits is `(q × 10^k + m) / 10^k`. */
  lemma SplitValue(q: nat, m: nat, k: nat, x: real)
    requires (q * Pow10(k) + m) as real == Shifted(x, k)
    ensures DecimalValue(q, m, k, 0) == x
  {
    DivideCast(q, m, k, x);
    UnscaledValue(q, m, k);
  }

  /** Dividing `q × 10^k + m = x × 10^k`, cast to reals, through by `10^k`. */
  lemma DivideCast(q: nat, m: nat, k: nat, x: real)
    requires (q * Pow10(k) + m) as real == Shifted(x, k)
    ensures q as real + m as real / Pow10(k) as real == x
  {
    var p := Pow10(k);
    CastSum(q, p, m);
    DivideOut(q as real, m as real, p as real, x);
  }

  /** Without an exponent, `DecimalValue` is the whole part plus the fraction over `10^places`. */
  lemma UnscaledValue(whole: nat, fraction: nat, places: nat)
    ensures DecimalValue(whole, fraction, places, 0) == whole as real + fraction as real / Pow10(places) as real
  {
    assert Scale10(0) == 1.0;
  }

  /** Casting `q × p + m` to a real commutes with the arithmetic. */
  lemma CastSum(q: nat, p: nat, m: nat)
    ensures (q * p + m) as real == q as real * p as real + m as real
  {
  }

  /** The fixed-point form of `n` with `k` fraction digits reads back as `n / 10^k`. */
  lemma PointFormValue(n: nat, k: nat, x: real)
    requires k >= 1 && n as real == Shifted(x, k)
    ensures ParseDecimal(PointForm(n, k)) == Some(x)
  {
    var p := Pow10(k);
    PointFormText(n, k);
    SplitValue(Quotient(n, p), Remainder(n, p), k, x);
  }

  /** The fixed-point form reads back as its whole part and its `k`-digit fraction. */
  lemma PointFormText(n: nat, k: nat)
    requires k >= 1
    ensures ParseDecimal(PointForm(n, k)) == Some(DecimalValue(Quotient(n, Pow10(k)), Remainder(n, Pow10(k)), k, 0))
  {
    var p := Pow10(k);
    var q, m := Quotient(n, p), Remainder(n, p);
    var a := NatText(q);
    var b := PadZeros(NatText(m), k);
    NatTextLength(m, k);
    assert |b| == k;
    NatTextRoundTrip(q);
    NatTextRoundTrip(m);
    assert DigitsValue(a) == q && DigitsValue(b) == m;
    var t := a + "." + b;
    assert PointForm(n, k) == t;
    assert t[0] == a[0];
    PointText(a, b);
  }

  /**
    `x.toFixed(2)` reads back as `x` rounded to the nearest hundredth, a tie
    rounding up: the number `parseFloat(x.toFixed(2))` gives.
  */
  lemma Fixed2TextValue(x: real)
    requires x >= 0.0
    ensures ParseDecimal(Fixed2Text(x)) == Some(Round2(x))
  {
    var c := (x * 100.0 + 0.5).Floor;
    assert c >= 0;
    HundredthsText(c);
  }

  /** The text of `c` hundredths, whole part, point and two digits, reads back as `c / 100`. */
  lemma HundredthsText(c: nat)
    ensures ParseDecimal(NatText(c / 100) + "." + [DigitChar((c % 100) / 10), DigitChar(c % 10)])
         == Some(c as real / 100.0)
  {
    var a := NatText(c / 100);
    var b := [DigitChar((c % 100) / 10), DigitChar(c % 10)];
    TwoDigitsValue(c);
    NatTextRoundTrip(c / 100);
    PointText(a, b);
    assert (a + "." + b)[0] == a[0];
    HundredthsValue(c);
  }

  /** The last two digits of `c` read back as `c % 100`. */
  lemma TwoDigitsValue(c: nat)
    ensures var b := [DigitChar((c % 100) / 10), DigitChar(c % 10)];
            AllDigits(b) && DigitsValue(b) == c % 100
  {
    var m := c % 100;
    var d1, d2 := DigitChar(m / 10), DigitChar(c % 10);
    var b := [d1, d2];
    assert b[..1] == [d1];
    assert [d1][..0] == [];
    assert DigitsValue([d1]) == m / 10;
    assert DigitsValue(b) == (m / 10) * 10 + c % 10;
    assert c % 10 == m % 10;
  }

  /** `c / 100` and two fraction digits `c % 100` make `c` hundredths. */
  lemma HundredthsValue(c: nat)
    ensures DecimalValue(c / 100, c % 100, 2, 0) == c as real / 100.0
  {
    var x := c as real / 100.0;
    assert Pow10(2) == 100 by {
      assert Pow10(1) == 10;
    }
    assert Shifted(x, 2) == c as real;
    assert (c / 100) * 100 + c % 100 == c;
    SplitValue(c / 100, c % 100, 2, x);
  }

  /** The digits of a whole number read back as that number. */
  lemma WholeTextValue(n: nat)
    ensures ParseDecimal(NatText(n)) == Some(n as real)
  {
    DigitsAreDecimal(NatText(n));
    NatTextRoundTrip(n);
  }

  /** The printed form of a number with fewer than MaxPlaces fraction digits reads back as that number. */
  lemma NumberTextRoundTrip(x: real)
    requires x >= 0.0 && Places(x, 0) < MaxPlaces
    ensures ParseDecimal(NumberText(x)) == Some(x)
  {
    if Places(x, 0) == 0 {
      WholeRoundTrip(x);
    } else {
      FractionRoundTrip(x, Places(x, 0));
    }
  }

  lemma WholeRoundTrip(x: real)
    requires x >= 0.0 && Places(x, 0) == 0
    ensures ParseDecimal(NumberText(x)) == Some(x)
  {
    var n := ShiftedDigits(x, 0);
    UnshiftedIsSelf(x);
    assert n as real == x;
    WholeTextValue(n);
  }

  lemma FractionRoundTrip(x: real, k: nat)
    requires x >= 0.0 && k == Places(x, 0) && 0 < k < MaxPlaces
    ensures ParseDecimal(NumberText(x)) == Some(x)
  {
    var n := ShiftedDigits(x, k);
    assert NumberText(x) == PointForm(n, k);
    assert IsWhole(Shifted(x, k));
    assert n as real == Shifted(x, k);
    PointFormValue(n, k, x);
  }

  lemma UnshiftedIsSelf(x: real)
    ensures Shifted(x, 0) == x
  {
    assert Pow10(0) == 1;
  }
}
