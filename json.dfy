/**
 * The decoded JSON values the client reads and writes. Only the scalars the
 * records carry are modelled: Python's `None`, `str`, `int` and `bool`.
 * A wire object is a map from keys to such values; JSON text is not modelled.
 */
module Json {

  datatype JVal = Null | Str(s: string) | Int(i: int) | Bool(b: bool)

  /** A decoded JSON object, as a Python `dict`. */
  type Object = map<string, JVal>

  /** `d.get(key)`: the stored value, or `None` when the key is absent. */
  function Get(d: Object, key: string): JVal {
    if key in d then d[key] else Null
  }

  /** `d.get(key, default)`. */
  function GetOr(d: Object, key: string, default: JVal): JVal {
    if key in d then d[key] else default
  }

  /** Python truthiness of a scalar: `None`, `""`, `0` and `False` are falsy. */
  predicate Truthy(v: JVal) {
    match v
    case Null => false
    case Str(s) => s != ""
    case Int(i) => i != 0
    case Bool(b) => b
  }

  function DigitChar(d: nat): (c: char)
    requires d < 10
    ensures '0' <= c <= '9'
  {
    "0123456789"[d]
  }

  predicate IsDigits(s: string) {
    forall k :: 0 <= k < |s| ==> '0' <= s[k] <= '9'
  }

  /** The decimal digits of `n`, most significant first, without leading zeros. */
  function Decimal(n: nat): (s: string)
    ensures s != [] && IsDigits(s)
    ensures |s| > 1 ==> s[0] != '0'
  {
    if n < 10 then [DigitChar(n)] else Decimal(n / 10) + [DigitChar(n % 10)]
  }

  /** The value of a string of decimal digits. */
  function DecimalValue(s: string): nat
    requires IsDigits(s)
  {
    if s == [] then 0
    else 10 * DecimalValue(s[..|s| - 1]) + ((s[|s| - 1] as int) - ('0' as int))
  }

  /** Reading back the digits of `Decimal(n)` gives `n`: formatting an integer loses nothing. */
  lemma {:induction false} DecimalValueOfDecimal(n: nat)
    ensures DecimalValue(Decimal(n)) == n
  {
    if n >= 10 {
      var s := Decimal(n);
      assert s[..|s| - 1] == Decimal(n / 10);
      DecimalValueOfDecimal(n / 10);
    }
  }

  /** Python's `str(v)`, which is what an f-string substitutes for `{v}`. */
  function PyStr(v: JVal): (s: string)
    ensures v.Str? ==> s == v.s
    ensures v.Int? && v.i >= 0 ==> IsDigits(s) && DecimalValue(s) == v.i
    ensures v.Int? && v.i < 0 ==> |s| >= 2 && s[0] == '-' && IsDigits(s[1..]) && DecimalValue(s[1..]) == -v.i
    ensures Truthy(v) ==> s != ""
  {
    match v
    case Null => "None"
    case Str(s) => s
    case Int(i) =>
      DecimalValueOfDecimal(if i >= 0 then i else -i);
      if i >= 0 then Decimal(i) else "-" + Decimal(-i)
    case Bool(b) => if b then "True" else "False"
  }
}
