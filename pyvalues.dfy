/**
 * The few Python value semantics the routing depends on: truthiness
 * (`if ports:`, `if templates or domain:`) and `str(...)`, which the
 * discovery dispatcher appends to a flag.
 */
module PyValues {

  /** A value a caller hands to `launch` as target, domain or ports. */
  datatype PyValue = PNone | PInt(i: int) | PStr(s: string)

  /** Python truthiness: `None`, `0` and `""` are false, everything else true. */
  predicate Truthy(v: PyValue)
    ensures !Truthy(v) <==> v in {PNone, PInt(0), PStr("")}
  {
    match v
    case PNone => false
    case PInt(i) => i != 0
    case PStr(s) => s != ""
  }

  predicate IsDigit(c: char)
  {
    '0' <= c <= '9'
  }

  predicate AllDigits(s: string)
  {
    forall k :: 0 <= k < |s| ==> IsDigit(s[k])
  }

  function DigitChar(d: nat): (c: char)
    requires d < 10
    ensures IsDigit(c) && c as int - '0' as int == d
  {
    ('0' as int + d) as char
  }

  /** The decimal numeral of `n`, as Python's `str` writes a non-negative int. */
  function NatToDecimal(n: nat): (r: string)
    ensures |r| > 0 && AllDigits(r)
    ensures r[0] == '0' ==> r == "0"
    decreases n
  {
    if n < 10 then [DigitChar(n)] else NatToDecimal(n / 10) + [DigitChar(n % 10)]
  }

  /** The value of a string of decimal digits (most significant first). */
  function DigitsValue(s: string): (v: nat)
    requires AllDigits(s)
  {
    if s == [] then 0 else DigitsValue(s[..|s| - 1]) * 10 + (s[|s| - 1] as int - '0' as int)
  }

  /** Reading back the numeral `str(n)` gives `n`: the decimal writer loses nothing. */
  lemma {:induction false} DecimalRoundTrip(n: nat)
    ensures DigitsValue(NatToDecimal(n)) == n
    decreases n
  {
    if n >= 10 {
      DecimalRoundTrip(n / 10);
      var s := NatToDecimal(n);
      assert s[..|s| - 1] == NatToDecimal(n / 10);
    }
  }

  /** Python's `str` of an int: a minus sign before the numeral of a negative value. */
  function IntToDecimal(n: int): (r: string)
    ensures |r| > 0
    ensures n >= 0 ==> AllDigits(r) && DigitsValue(r) == n
    ensures n >= 0 ==> (r[0] == '0' ==> r == "0")
    ensures n < 0 ==> |r| > 1 && r[0] == '-' && r[1] != '0'
    ensures n < 0 ==> AllDigits(r[1..]) && DigitsValue(r[1..]) == -n
  {
    if n < 0 then
      var d := NatToDecimal(-n);
      DecimalRoundTrip(-n);
      assert ("-" + d)[1..] == d;
      "-" + d
    else
      DecimalRoundTrip(n);
      NatToDecimal(n)
  }

  /** Python's `str(v)`: `"None"` for None, the numeral for an int, the string itself. */
  function Str(v: PyValue): (r: string)
    ensures v.PNone? ==> r == "None"
    ensures v.PStr? ==> r == v.s
    ensures v.PInt? && v.i >= 0 ==> AllDigits(r) && DigitsValue(r) == v.i
    ensures v.PInt? && v.i >= 0 ==> |r| > 0 && (r[0] == '0' ==> r == "0")
    ensures v.PInt? && v.i < 0 ==> |r| > 1 && r[0] == '-' && r[1] != '0'
    ensures v.PInt? && v.i < 0 ==> AllDigits(r[1..]) && DigitsValue(r[1..]) == -v.i
  {
    match v
    case PNone => "None"
    case PInt(i) => IntToDecimal(i)
    case PStr(s) => s
  }
}
