/**
 * The JSON-shaped values that flow between the web layer and the advisory
 * engine, with the few Python built-ins applied to them: truthiness,
 * `isinstance(v, (int, float))`, `dict.get` and `float(v)`.
 */
module PyData {
  import opened Wrappers
  import opened PyStrings

  /** A JSON value as Python holds it after `json.load` or a request parse. */
  datatype Value =
    | Null
    | Bool(b: bool)
    | Int(i: int)
    | Float(f: real)
    | Str(s: string)
    | List(items: seq<Value>)
    | Object(fields: map<string, Value>)

  predicate IsScalar(v: Value) { !v.List? && !v.Object? }

  /** The values a request field or a classifier feature can hold. */
  type Scalar = v: Value | IsScalar(v) witness Null

  /** Python truthiness: None, False, 0, 0.0 and "" are false. */
  predicate Truthy(v: Scalar)
  {
    match v
    case Null => false
    case Bool(b) => b
    case Int(i) => i != 0
    case Float(f) => f != 0.0
    case Str(s) => s != ""
  }

  /** Python truthiness of any JSON value: an empty list or dict is false as well. */
  predicate JsonTruthy(v: Value)
  {
    if v.List? then |v.items| > 0
    else if v.Object? then |v.fields| > 0
    else Truthy(v)
  }

  /** `isinstance(v, (int, float))`; a Python bool is an int. */
  predicate IsNumeric(v: Value) { v.Bool? || v.Int? || v.Float? }

  /** `m.get(key, default)`. */
  function Get<V>(m: map<string, V>, key: string, default: V): V
  {
    if key in m then m[key] else default
  }

  predicate IsDigit(c: char) { '0' <= c <= '9' }

  predicate AllDigits(s: string) { forall k :: 0 <= k < |s| ==> IsDigit(s[k]) }

  function DigitValue(c: char): nat
    requires IsDigit(c)
  {
    c as int - '0' as int
  }

  function DigitChar(d: nat): (c: char)
    requires d < 10
    ensures IsDigit(c) && DigitValue(c) == d
  {
    ('0' as int + d) as char
  }

  /** The number a string of decimal digits denotes. */
  function DigitsValue(s: string): nat
    requires AllDigits(s)
  {
    if s == [] then 0 else DigitsValue(s[..|s| - 1]) * 10 + DigitValue(s[|s| - 1])
  }

  function Pow10(n: nat): (p: nat)
    ensures p > 0
  {
    if n == 0 then 1 else 10 * Pow10(n - 1)
  }

  /** The number written as `whole.frac`, when both parts are digits and not both empty. */
  function ParsePointed(whole: string, frac: string): Option<real>
  {
    if |whole| + |frac| > 0 && AllDigits(whole) && AllDigits(frac)
    then Some(DigitsValue(whole) as real + DigitsValue(frac) as real / Pow10(|frac|) as real)
    else None
  }

  /** An unsigned decimal: digits, optionally a point and more digits, at least one digit in all. */
  function ParseUnsigned(s: string): Option<real>
  {
    match FindFirst(s, ".")
    case None => if |s| > 0 && AllDigits(s) then Some(DigitsValue(s) as real) else None
    case Some(i) => ParsePointed(s[..i], s[i + 1..])
  }

  /** A character Python's `float` accepts in the decimal notation modelled here. */
  predicate IsNumberChar(c: char) { IsDigit(c) || c == '.' || c == '+' || c == '-' }

  lemma ParseUnsignedChars(s: string)
    requires ParseUnsigned(s).Some?
    ensures forall k :: 0 <= k < |s| ==> IsDigit(s[k]) || s[k] == '.'
  {
    match FindFirst(s, ".")
    case None =>
    case Some(i) =>
      forall k | 0 <= k < |s| ensures IsDigit(s[k]) || s[k] == '.' {
        if k < i { assert s[k] == s[..i][k]; }
        else if k > i { assert s[k] == s[i + 1..][k - i - 1]; }
        else { assert s[i..i + 1][0] == s[i]; }
      }
  }

  /**
   * `float(s)` for a string, over an optional sign and a plain decimal
   * number; None where Python raises ValueError.
   */
  function ParseFloatText(s: string): (r: Option<real>)
    ensures r.Some? ==> forall k :: 0 <= k < |s| ==> IsNumberChar(s[k])
  {
    if |s| > 0 && (s[0] == '-' || s[0] == '+') then
      match ParseUnsigned(s[1..])
      case None => None
      case Some(v) =>
        ParseUnsignedChars(s[1..]);
        assert forall k :: 1 <= k < |s| ==> s[k] == s[1..][k - 1];
        Some(if s[0] == '-' then -v else v)
    else
      var r := ParseUnsigned(s);
      if r.Some? then ParseUnsignedChars(s); r else r
  }

  /** `float(v)` for a scalar; None where Python raises (TypeError on None, ValueError on text). */
  function ToFloat(v: Scalar): (r: Option<real>)
    ensures v.Null? ==> r.None?
    ensures IsNumeric(v) ==> r.Some?
    ensures v.Int? ==> r == Some(v.i as real)
    ensures v.Float? ==> r == Some(v.f)
    ensures v.Bool? ==> r == Some(if v.b then 1.0 else 0.0)
    ensures v.Str? ==> r == ParseFloatText(v.s)
    ensures v.Str? && '%' in v.s ==> r.None?
  {
    match v
    case Null => None
    case Bool(b) => Some(if b then 1.0 else 0.0)
    case Int(i) => Some(i as real)
    case Float(f) => Some(f)
    case Str(s) => ParseFloatText(s)
  }

  /** A string holding a percent sign is not a number to `float`. */
  lemma PercentIsNotFloat(s: string)
    requires '%' in s
    ensures ParseFloatText(s) == None
  {
    var k :| 0 <= k < |s| && s[k] == '%';
    assert !IsNumberChar(s[k]);
  }

  /** `str(n)` for a natural number: its decimal digits, without leading zeros. */
  function DecimalText(n: nat): (t: string)
    ensures |t| > 0 && AllDigits(t)
  {
    if n < 10 then [DigitChar(n)] else DecimalText(n / 10) + [DigitChar(n % 10)]
  }

  lemma {:induction false} DecimalTextValue(n: nat)
    ensures DigitsValue(DecimalText(n)) == n
  {
    if n >= 10 {
      DecimalTextValue(n / 10);
      var t := DecimalText(n);
      assert t[..|t| - 1] == DecimalText(n / 10);
    }
  }

  /** The two digits `:02d` writes for a number below 100. */
  function TwoDigits(r: nat): (t: string)
    requires r < 100
    ensures |t| == 2 && AllDigits(t) && DigitsValue(t) == r
  {
    var t := [DigitChar(r / 10), DigitChar(r % 10)];
    assert t[..1] == [DigitChar(r / 10)] && t[..1][..0] == [];
    assert DigitsValue(t[..1]) == r / 10;
    t
  }

  /**
   * `f"{x:.2f}"` for a non-negative number already rounded to hundredths,
   * given as its count of hundredths.
   */
  function FixedTwo(hundredths: nat): string
  {
    DecimalText(hundredths / 100) + "." + TwoDigits(hundredths % 100)
  }

  /** The first point in `whole + "." + frac`, when `whole` is all digits, is the one after `whole`. */
  lemma FirstPointAfterDigits(whole: string, frac: string)
    requires AllDigits(whole)
    ensures FindFirst(whole + "." + frac, ".") == Some(|whole|)
  {
    var s := whole + "." + frac;
    assert s[|whole|..|whole| + 1] == ".";
    assert OccursAt(s, ".", |whole|);
    forall j | 0 <= j < |whole| ensures !OccursAt(s, ".", j) {
      assert s[j..j + 1][0] == whole[j];
    }
    var i := FindFirst(s, ".");
    assert i.Some?;
    assert !(i.value < |whole|);
  }

  /** A point after a run of digits is where an unsigned decimal splits. */
  lemma ParseUnsignedAtPoint(whole: string, frac: string)
    requires AllDigits(whole)
    ensures ParseUnsigned(whole + "." + frac) == ParsePointed(whole, frac)
  {
    var s := whole + "." + frac;
    FirstPointAfterDigits(whole, frac);
    assert s[..|whole|] == whole && s[|whole| + 1..] == frac;
  }

  /** A count of hundredths is its whole part plus its remainder in hundredths. */
  lemma HundredthsSplit(h: nat)
    ensures (h / 100) as real + (h % 100) as real / 100.0 == h as real / 100.0
  {
    var w, r := h / 100, h % 100;
    assert h == w * 100 + r;
    assert h as real == w as real * 100.0 + r as real;
  }

  /** The whole and fractional digits `:.2f` writes denote the number of hundredths. */
  lemma PointedHundredths(h: nat)
    ensures ParsePointed(DecimalText(h / 100), TwoDigits(h % 100)) == Some(h as real / 100.0)
  {
    var whole, frac := DecimalText(h / 100), TwoDigits(h % 100);
    DecimalTextValue(h / 100);
    assert Pow10(|frac|) == 100 by {
      assert Pow10(1) == 10;
    }
    assert ParsePointed(whole, frac) == Some((h / 100) as real + (h % 100) as real / 100.0);
    HundredthsSplit(h);
  }

  /** `float` reads back exactly the number `:.2f` wrote. */
  lemma FixedTwoRoundTrip(h: nat)
    ensures ParseFloatText(FixedTwo(h)) == Some(h as real / 100.0)
  {
    var whole, frac := DecimalText(h / 100), TwoDigits(h % 100);
    var s := whole + "." + frac;
    assert FixedTwo(h) == s;
    assert ParseFloatText(s) == ParseUnsigned(s) by {
      assert s[0] == whole[0] && IsDigit(whole[0]);
    }
    ParseUnsignedAtPoint(whole, frac);
    PointedHundredths(h);
  }
}
