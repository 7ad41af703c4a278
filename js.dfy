/**
  The parts of JavaScript's value semantics that the request guards rely on:
  truthiness, the `ToNumber` coercion used by `<`, `<=` and `>`, and
  `String.prototype.trim`, which is also what Mongoose's `trim: true` applies.
*/
module Js {
  import opened Wrappers

  /** A value of a parsed JSON request body; a key the body lacks reads as Undefined. */
  datatype Value = Undefined | Null | Bool(b: bool) | Num(x: real) | Text(s: string)

  /** `req.body`: the keys the client sent, with their values. */
  type Body = map<string, Value>

  function Get(body: Body, key: string): Value {
    if key in body then body[key] else Undefined
  }

  /** JavaScript truthiness: `undefined`, `null`, `false`, `0` and `""` are falsy. */
  predicate Truthy(v: Value) {
    match v
    case Undefined => false
    case Null => false
    case Bool(b) => b
    case Num(x) => x != 0.0
    case Text(s) => s != ""
  }

  /** The falsy values are exactly the five listed in the language definition. */
  lemma FalsyValues(v: Value)
    ensures !Truthy(v) <==> v in {Undefined, Null, Bool(false), Num(0.0), Text("")}
  {
  }

  /**
    `s.length`: the number of UTF-16 code units, one for a character up to
    U+FFFF and two (a surrogate pair) for one beyond it.
  */
  function Utf16Length(s: string): (n: nat)
    ensures |s| <= n <= 2 * |s|
  {
    if s == [] then 0 else Utf16Length(s[..|s| - 1]) + (if s[|s| - 1] as int >= 0x1_0000 then 2 else 1)
  }

  /** Text of Basic Multilingual Plane characters only has one code unit per character. */
  lemma {:induction false} BmpLength(s: string)
    requires forall i :: 0 <= i < |s| ==> s[i] as int < 0x1_0000
    ensures Utf16Length(s) == |s|
  {
    if s != [] {
      BmpLength(s[..|s| - 1]);
    }
  }

  /** The code units of `a + b` are those of `a` followed by those of `b`. */
  lemma {:induction false} Utf16LengthAppend(a: string, b: string)
    ensures Utf16Length(a + b) == Utf16Length(a) + Utf16Length(b)
    decreases |b|
  {
    if b == [] {
      assert a + b == a;
    } else {
      Utf16LengthAppend(a, b[..|b| - 1]);
      assert (a + b)[..|a + b| - 1] == a + b[..|b| - 1];
    }
  }

  /**
    The characters `trim` removes: ECMAScript's WhiteSpace (tab, vertical tab,
    form feed, space, no-break space, the byte order mark and the Unicode Zs
    spaces) and LineTerminator (line feed, carriage return, U+2028, U+2029).
  */
  predicate IsSpace(c: char) {
    || c == '\t' || c == '\n' || c == '\U{000B}' || c == '\U{000C}' || c == '\r' || c == ' '
    || c == '\U{00A0}' || c == '\U{1680}' || '\U{2000}' <= c <= '\U{200A}'
    || c == '\U{2028}' || c == '\U{2029}' || c == '\U{202F}' || c == '\U{205F}' || c == '\U{3000}'
    || c == '\U{FEFF}'
  }

  /** A string with no white space at either end. */
  predicate Trimmed(s: string) {
    s == [] || (!IsSpace(s[0]) && !IsSpace(s[|s| - 1]))
  }

  function TrimStart(s: string): (r: string)
    ensures |r| <= |s| && r == s[|s| - |r|..]
    ensures r == [] || !IsSpace(r[0])
    ensures forall i :: 0 <= i < |s| - |r| ==> IsSpace(s[i])
  {
    if s != [] && IsSpace(s[0]) then TrimStart(s[1..]) else s
  }

  function TrimEnd(s: string): (r: string)
    ensures |r| <= |s| && r == s[..|r|]
    ensures r == [] || !IsSpace(r[|r| - 1])
    ensures forall i :: |r| <= i < |s| ==> IsSpace(s[i])
  {
    if s != [] && IsSpace(s[|s| - 1]) then TrimEnd(s[..|s| - 1]) else s
  }

  /** `s.trim()`: the longest infix of `s` that neither starts nor ends with white space. */
  function Trim(s: string): (r: string)
    ensures Trimmed(r) && |r| <= |s|
    ensures Trimmed(s) ==> r == s
  {
    TrimEnd(TrimStart(s))
  }

  /** Trimming is idempotent. */
  lemma TrimIdempotent(s: string)
    ensures Trim(Trim(s)) == Trim(s)
  {
  }

  function DigitValue(c: char): nat
    requires '0' <= c <= '9'
  {
    (c as int - '0' as int) as nat
  }

  predicate AllDigits(s: string) {
    forall i :: 0 <= i < |s| ==> '0' <= s[i] <= '9'
  }

  /** The value of a string of decimal digits. */
  function DigitsValue(s: string): nat
    requires AllDigits(s)
  {
    if s == [] then 0 else DigitsValue(s[..|s| - 1]) * 10 + DigitValue(s[|s| - 1])
  }

  /** A decimal integer literal with an optional sign, or None. */
  function ParseInteger(t: string): (r: Option<int>)
    ensures r.Some? ==> t != []
  {
    if t == [] then None
    else if t[0] == '-' || t[0] == '+' then
      var digits := t[1..];
      if digits != [] && AllDigits(digits) then
        Some(if t[0] == '-' then -(DigitsValue(digits) as int) else DigitsValue(digits))
      else None
    else if AllDigits(t) then Some(DigitsValue(t))
    else None
  }

  /** The position of the first character of `s` that is in `cs`, or `|s|` when there is none. */
  function IndexOfAny(s: string, cs: set<char>): (r: nat)
    ensures r <= |s|
    ensures r < |s| ==> s[r] in cs
    ensures forall i :: 0 <= i < r ==> s[i] !in cs
  {
    if s == [] || s[0] in cs then 0 else 1 + IndexOfAny(s[1..], cs)
  }

  /** Ten to a natural power. */
  function Pow10(k: nat): (r: nat)
    ensures r >= 1
  {
    if k == 0 then 1 else 10 * Pow10(k - 1)
  }

  /** Ten to an integer power, as a real. */
  function Scale10(e: int): (r: real)
    ensures r > 0.0
  {
    if e >= 0 then Pow10(e) as real else 1.0 / Pow10(-e) as real
  }

  /**
    An unsigned decimal literal: digits with an optional fraction (`12`,
    `12.5`, `.5`, `12.`), at least one digit in all, then an optional
    exponent (`1e3`, `2.5E-2`); None for anything else.
  */
  function UnsignedDecimal(t: string): (r: Option<real>)
    ensures r.Some? ==> r.value >= 0.0
  {
    var e := IndexOfAny(t, {'e', 'E'});
    var exponent := if e < |t| then ParseInteger(t[e + 1..]) else Some(0);
    var mantissa := t[..e];
    var d := IndexOfAny(mantissa, {'.'});
    var whole := mantissa[..d];
    var fraction := if d < |mantissa| then mantissa[d + 1..] else [];
    if exponent.None? || whole + fraction == [] || !AllDigits(whole) || !AllDigits(fraction) then None
    else Some(DecimalValue(DigitsValue(whole), DigitsValue(fraction), |fraction|, exponent.value))
  }

  /** `whole.fraction × 10^exponent`, the fraction having `places` digits. */
  function DecimalValue(whole: nat, fraction: nat, places: nat, exponent: int): (r: real)
    ensures r >= 0.0
  {
    var m := whole as real + fraction as real / Pow10(places) as real;
    assert m >= 0.0;
    m * Scale10(exponent)
  }

  /** A decimal literal with an optional sign, or None (NaN). */
  function ParseDecimal(t: string): (r: Option<real>)
    ensures t != [] && t[0] != '-' && t[0] != '+' ==> r == UnsignedDecimal(t)
  {
    if t != [] && t[0] == '-' then
      match UnsignedDecimal(t[1..])
      case Some(x) => Some(-x)
      case None => None
    else if t != [] && t[0] == '+' then UnsignedDecimal(t[1..])
    else UnsignedDecimal(t)
  }

  /** Digit text contains neither an exponent mark nor a decimal point. */
  lemma DigitsHaveNoMarks(s: string, cs: set<char>)
    requires AllDigits(s) && forall c :: c in cs ==> !('0' <= c <= '9')
    ensures IndexOfAny(s, cs) == |s|
  {
  }

  /** Unsigned digits read as a decimal literal give their integer value. */
  lemma DigitsAreDecimal(s: string)
    requires s != [] && AllDigits(s)
    ensures UnsignedDecimal(s) == Some(DigitsValue(s) as real)
  {
    DigitsHaveNoMarks(s, {'e', 'E'});
    assert s[..|s|] == s;
    DigitsHaveNoMarks(s, {'.'});
    assert s + [] == s;
    WholeValue(DigitsValue(s));
  }

  /** A whole number without fraction or exponent is its own value. */
  lemma WholeValue(n: nat)
    ensures DecimalValue(n, 0, 0, 0) == n as real
  {
    assert Pow10(0) == 1;
    assert Scale10(0) == 1.0;
  }

  /** Every signed integer literal is also a decimal literal, of the same value. */
  lemma IntegerTextIsDecimal(t: string)
    requires ParseInteger(t).Some?
    ensures ParseDecimal(t) == Some(ParseInteger(t).value as real)
  {
    if t[0] == '-' || t[0] == '+' {
      DigitsAreDecimal(t[1..]);
    } else {
      DigitsAreDecimal(t);
    }
  }

  /** `Number("12.5")` is 12.5. */
  lemma FractionExample()
    ensures ParseDecimal("12.5") == Some(12.5)
  {
    var a := "12.5";
    assert IndexOfAny(a, {'e', 'E'}) == 4 by {
      DigitsHaveNoMarks("12", {'e', 'E'});
      assert a[1..] == "2.5" && a[2..] == ".5" && a[3..] == "5";
    }
    assert a[..4] == a;
    assert IndexOfAny(a, {'.'}) == 2 by {
      assert a[1..] == "2.5" && a[2..] == ".5";
    }
    assert a[..2] == "12" && a[3..] == "5";
    assert DigitsValue("12") == 12 by {
      assert "12"[..1] == "1";
    }
    assert "12" + "5" != [];
    assert DigitsValue("5") == 5 by {
      assert "5"[..0] == [];
    }
    assert DecimalValue(12, 5, 1, 0) == 12.5;
  }

  /** `Number("-0.5")` is -0.5. */
  lemma NegativeFractionExample()
    ensures ParseDecimal("-0.5") == Some(-0.5)
  {
    var b := "0.5";
    assert "-0.5"[1..] == b;
    assert IndexOfAny(b, {'e', 'E'}) == 3 by {
      assert b[1..] == ".5" && b[2..] == "5";
    }
    assert b[..3] == b;
    assert IndexOfAny(b, {'.'}) == 1 by {
      assert b[1..] == ".5";
    }
    assert b[..1] == "0" && b[2..] == "5";
    assert DigitsValue("0") == 0 by {
      assert "0"[..0] == [];
    }
    assert DigitsValue("5") == 5 by {
      assert "5"[..0] == [];
    }
    assert DecimalValue(0, 5, 1, 0) == 0.5;
  }

  /** `Number("1e3")` is 1000. */
  lemma ExponentExample()
    ensures ParseDecimal("1e3") == Some(1000.0)
  {
    var c := "1e3";
    assert IndexOfAny(c, {'e', 'E'}) == 1 by {
      assert c[1..] == "e3";
    }
    assert c[..1] == "1" && c[2..] == "3";
    assert IndexOfAny("1", {'.'}) == 1 by {
      assert "1"[1..] == [];
    }
    assert "1"[..1] == "1";
    assert DigitsValue("1") == 1 by {
      assert "1"[..0] == [];
    }
    assert ParseInteger("3") == Some(3) by {
      assert "3"[..0] == [];
    }
    assert "1" + [] == "1";
    assert Pow10(3) == 1000;
    assert DecimalValue(1, 0, 0, 3) == 1000.0;
  }

  /**
    `Number(s)`: blank text is 0, a decimal literal is its value, anything
    else is NaN (None).
  */
  function TextToNumber(s: string): Option<real> {
    var t := Trim(s);
    if t == [] then Some(0.0) else ParseDecimal(t)
  }

  /** JavaScript's ToNumber; None stands for NaN. */
  function ToNumber(v: Value): (r: Option<real>)
    ensures v.Num? ==> r == Some(v.x)
    ensures v == Undefined ==> r == None
  {
    match v
    case Undefined => None
    case Null => Some(0.0)
    case Bool(b) => Some(if b then 1.0 else 0.0)
    case Num(x) => Some(x)
    case Text(s) => TextToNumber(s)
  }

  /** Decimal text compares by its value: `"-0.5" <= 0` and `"12.5" > 0`. */
  lemma DecimalTextNumbers()
    ensures ToNumber(Text("-0.5")) == Some(-0.5)
    ensures ToNumber(Text("12.5")) == Some(12.5)
  {
    assert Trimmed("-0.5") && Trimmed("12.5");
    NegativeFractionExample();
    FractionExample();
  }

  /** `v < c`; every comparison with NaN is false. */
  predicate Less(v: Value, c: real) {
    var n := ToNumber(v);
    n.Some? && n.value < c
  }

  /** `v <= c`. */
  predicate AtMost(v: Value, c: real) {
    var n := ToNumber(v);
    n.Some? && n.value <= c
  }

  /** `v > c`. */
  predicate Greater(v: Value, c: real) {
    var n := ToNumber(v);
    n.Some? && n.value > c
  }
}
