/**
 * JSON values as Python's `json` module hands them to the dashboard, and the
 * two Python built-ins the analytics code applies to them: truthiness
 * (`if x:`) and `float(x)`.
 */
module JsonValue {
  import opened Wrappers
  import opened Text

  /** A decoded JSON document; integers and floats are both `Num`. */
  datatype Json =
    | Null
    | Bool(b: bool)
    | Num(n: real)
    | Str(s: string)
    | Arr(items: seq<Json>)
    | Obj(fields: map<string, Json>)

  /** Python truthiness: `None`, `False`, `0`, `""`, `[]` and `{}` are false. */
  predicate Truthy(v: Json)
  {
    match v
    case Null => false
    case Bool(b) => b
    case Num(x) => x != 0.0
    case Str(s) => s != ""
    case Arr(a) => a != []
    case Obj(m) => m != map[]
  }

  /** `d.get(key, default)` on a dict. */
  function Get<K, V>(d: map<K, V>, key: K, default: V): (v: V)
    ensures key in d ==> v == d[key]
    ensures key !in d ==> v == default
  {
    if key in d then d[key] else default
  }

  /** Python's `float(v)`; `None` stands for the `ValueError` or `TypeError` it raises. */
  function ToFloat(v: Json): (r: Option<real>)
    ensures v.Num? ==> r == Some(v.n)
    ensures v.Null? || v.Arr? || v.Obj? ==> r == None
  {
    match v
    case Num(x) => Some(x)
    case Bool(b) => Some(if b then 1.0 else 0.0)
    case Str(s) => ParseDecimal(s)
    case _ => None
  }

  // ---------------------------------------------------------------------
  // Decimal literals, as `float(str)` reads them: an optional sign, digits
  // with an optional fraction, and an optional exponent.
  // ---------------------------------------------------------------------

  predicate IsDigit(c: char) { '0' <= c <= '9' }

  predicate AllDigits(s: string) { forall i :: 0 <= i < |s| ==> IsDigit(s[i]) }

  function DigitValue(c: char): nat
    requires IsDigit(c)
  {
    (c as int) - ('0' as int)
  }

  /** The number a string of decimal digits denotes, most significant digit first. */
  function DigitsValue(s: string): nat
    requires AllDigits(s)
  {
    if s == [] then 0 else DigitsValue(s[..|s| - 1]) * 10 + DigitValue(s[|s| - 1])
  }

  function Pow10(n: nat): (p: nat)
    ensures p >= 1
  {
    if n == 0 then 1 else 10 * Pow10(n - 1)
  }

  /** The position of the first exponent marker (`e` or `E`), or `|s|`. */
  function IndexOfExponent(s: string): (k: nat)
    ensures k <= |s|
    ensures k < |s| ==> s[k] == 'e' || s[k] == 'E'
    ensures forall i :: 0 <= i < k ==> s[i] != 'e' && s[i] != 'E'
  {
    if s == [] then 0 else if s[0] == 'e' || s[0] == 'E' then 0 else 1 + IndexOfExponent(s[1..])
  }

  /** The value of the digits after a decimal point: `"25"` is 0.25. */
  function FracValue(s: string): (r: real)
    requires AllDigits(s)
    ensures 0.0 <= r <= 1.0
  {
    if s == [] then 0.0 else (DigitValue(s[0]) as real + FracValue(s[1..])) / 10.0
  }

  /** Digits with at most one `.`, at least one digit in all. */
  function ParseMantissa(s: string): Option<real>
  {
    var dot := IndexOf(s, '.');
    var whole := s[..dot];
    var frac := if dot < |s| then s[dot + 1..] else "";
    if AllDigits(whole) && AllDigits(frac) && |whole| + |frac| > 0 then
      Some(DigitsValue(whole) as real + FracValue(frac))
    else
      None
  }

  /** An optionally signed, non-empty digit string: the exponent of a literal. */
  function ParseExponent(s: string): Option<int>
  {
    var signed := |s| > 0 && (s[0] == '+' || s[0] == '-');
    var digits := if signed then s[1..] else s;
    if digits != [] && AllDigits(digits) then
      var v: int := DigitsValue(digits);
      Some(if signed && s[0] == '-' then -v else v)
    else
      None
  }

  /** `x` times ten to the power `e`. */
  function Scale(x: real, e: int): real
    decreases if e >= 0 then e else -e
  {
    if e == 0 then x else if e > 0 then 10.0 * Scale(x, e - 1) else Scale(x, e + 1) / 10.0
  }

  function ParseUnsigned(s: string): Option<real>
  {
    var k := IndexOfExponent(s);
    var mantissa := ParseMantissa(s[..k]);
    if mantissa.None? then None
    else if k == |s| then mantissa
    else
      var e := ParseExponent(s[k + 1..]);
      if e.None? then None else Some(Scale(mantissa.value, e.value))
  }

  /** `float(s)` for a string `s`; `None` is the `ValueError`. */
  function ParseDecimal(s: string): Option<real>
  {
    if |s| > 0 && (s[0] == '+' || s[0] == '-') then
      var u := ParseUnsigned(s[1..]);
      if u.None? then None else Some(if s[0] == '-' then -u.value else u.value)
    else
      ParseUnsigned(s)
  }

  // ---------------------------------------------------------------------
  // The parser reads back what `str(n)` writes for an integer.
  // ---------------------------------------------------------------------

  function DigitChar(d: nat): (c: char)
    requires d < 10
    ensures IsDigit(c) && DigitValue(c) == d
  {
    ('0' as int + d) as char
  }

  /** The decimal digits of `n`, as `str(n)` prints a non-negative integer. */
  function NatString(n: nat): (s: string)
    ensures s != [] && AllDigits(s)
  {
    if n < 10 then [DigitChar(n)] else NatString(n / 10) + [DigitChar(n % 10)]
  }

  /** `str(i)` for any integer. */
  function IntString(i: int): string
  {
    if i < 0 then "-" + NatString(-i) else NatString(i)
  }

  lemma {:induction false} NatStringValue(n: nat)
    ensures DigitsValue(NatString(n)) == n
  {
    var s := NatString(n);
    if n >= 10 {
      NatStringValue(n / 10);
      assert s[..|s| - 1] == NatString(n / 10);
    }
  }

  lemma DigitsHaveNoMarkers(s: string)
    requires AllDigits(s)
    ensures IndexOf(s, '.') == |s| && IndexOfExponent(s) == |s|
  {
    if s != [] {
      assert AllDigits(s[1..]);
      DigitsHaveNoMarkers(s[1..]);
    }
  }

  /** Round trip: `float(str(n)) == n` for every integer `n`. */
  lemma ParseIntString(i: int)
    ensures ParseDecimal(IntString(i)) == Some(i as real)
  {
    var n: nat := if i < 0 then -i else i;
    var s := NatString(n);
    NatStringValue(n);
    DigitsHaveNoMarkers(s);
    assert s[..|s|] == s;
    assert ParseMantissa(s) == Some(n as real);
    assert ParseUnsigned(s) == Some(n as real);
    if i < 0 {
      assert IntString(i)[1..] == s;
    } else {
      assert s[0] != '+' && s[0] != '-';
    }
  }
}
