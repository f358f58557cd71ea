/**
 * Parameter values and column labels, and Python's `str()` of them.
 * A template parameter is substituted as `str(value)`, and a data-frame
 * column label is rewritten as `"{}".format(label)`, which is the same text.
 */
module Values {

  /** The kinds of value a parameter mapping (a dict or a JSON object) holds in this model. */
  datatype Value = Int(i: int) | Str(s: string) | Bool(b: bool) | Null

  predicate IsDigit(c: char) { '0' <= c <= '9' }

  predicate AllDigits(s: string) { forall k :: 0 <= k < |s| ==> IsDigit(s[k]) }

  function DigitChar(d: nat): (c: char)
    requires d < 10
    ensures IsDigit(c)
  {
    ['0', '1', '2', '3', '4', '5', '6', '7', '8', '9'][d]
  }

  function DigitValue(c: char): nat
    requires IsDigit(c)
  {
    (c - '0') as nat
  }

  lemma DigitCharValue(d: nat)
    requires d < 10
    ensures DigitValue(DigitChar(d)) == d
  {
  }

  /** The decimal digits of `n`, most significant first, as `str(n)` writes them. */
  function Decimal(n: nat): (r: string)
    ensures r != [] && AllDigits(r)
    ensures r[0] == '0' ==> n == 0 && r == "0"
    decreases n
  {
    if n < 10 then [DigitChar(n)] else Decimal(n / 10) + [DigitChar(n % 10)]
  }

  /** Reads a string of decimal digits back as a number (Python `int(s)` on digit strings). */
  function DigitsValue(s: string): nat
    requires AllDigits(s)
    decreases |s|
  {
    if s == [] then 0 else DigitsValue(s[..|s| - 1]) * 10 + DigitValue(s[|s| - 1])
  }

  /** `int(str(n)) == n` for every natural number. */
  lemma {:induction false} DecimalRoundTrip(n: nat)
    ensures DigitsValue(Decimal(n)) == n
    decreases n
  {
    var r := Decimal(n);
    if n < 10 {
      assert r[..|r| - 1] == [];
    } else {
      var front := Decimal(n / 10);
      assert r[..|r| - 1] == front;
      DecimalRoundTrip(n / 10);
    }
  }

  /** Python's `str(v)`. */
  function Show(v: Value): string {
    match v
    case Int(i) => if i >= 0 then Decimal(i) else "-" + Decimal(-i)
    case Str(s) => s
    case Bool(b) => if b then "True" else "False"
    case Null => "None"
  }

  /**
   * What `str()` writes: a string verbatim; an integer in decimal digits
   * without leading zeros, after a `-` when negative, reading back as the
   * same number; the two booleans and `None` by their names.
   */
  lemma ShowText(v: Value)
    ensures v.Str? ==> Show(v) == v.s
    ensures v.Int? && v.i >= 0 ==> AllDigits(Show(v)) && Show(v) != [] && DigitsValue(Show(v)) == v.i
    ensures v.Int? && v.i < 0 ==>
      |Show(v)| >= 2 && Show(v)[0] == '-' && AllDigits(Show(v)[1..]) && DigitsValue(Show(v)[1..]) == -v.i
    ensures v.Int? && v.i >= 0 ==> Show(v)[0] != '0' || Show(v) == "0"
    ensures v.Int? && v.i < 0 ==> Show(v)[1] != '0'
    ensures v.Bool? ==> Show(v) == if v.b then "True" else "False"
    ensures v.Null? ==> Show(v) == "None"
  {
    if v.Int? {
      if v.i >= 0 {
        DecimalRoundTrip(v.i);
      } else {
        DecimalRoundTrip(-v.i);
        assert ("-" + Decimal(-v.i))[1..] == Decimal(-v.i);
      }
    }
  }
}
