/**
 * The two JavaScript coercions the request handlers lean on: truthiness of an
 * optional string, and `Number(s)` as tested by `isNaN`.
 */
module JsValues {
  import opened Wrappers

  /** A query or body value is truthy when it is defined and not the empty string. */
  predicate Truthy(v: Option<string>) {
    v.Some? && v.value != ""
  }

  /** The two literals a boolean query flag may take. */
  predicate IsBooleanLiteral(s: string) {
    s == "true" || s == "false"
  }

  predicate IsDigit(c: char) {
    '0' <= c <= '9'
  }

  predicate AllDigits(s: string) {
    forall i :: 0 <= i < |s| ==> IsDigit(s[i])
  }

  /** Value of a run of decimal digits, most significant first. */
  function DigitsValue(s: string): nat
    requires AllDigits(s)
  {
    if s == [] then 0 else DigitsValue(s[..|s| - 1]) * 10 + (s[|s| - 1] as int - '0' as int)
  }

  /** The numeric strings of the model: an optional sign followed by decimal digits. */
  predicate IsDecimal(s: string) {
    (|s| >= 2 && (s[0] == '-' || s[0] == '+') && AllDigits(s[1..])) || (|s| >= 1 && AllDigits(s))
  }

  /**
   * `Number(s)`, with `None` standing for `NaN`. Only signed decimal integers
   * are numeric here.
   */
  function ParseNumber(s: string): (r: Option<int>)
    ensures r.Some? <==> IsDecimal(s)
    ensures r.Some? && AllDigits(s) ==> r.value >= 0
  {
    if |s| >= 2 && s[0] == '-' && AllDigits(s[1..]) then Some(-(DigitsValue(s[1..]) as int))
    else if |s| >= 2 && s[0] == '+' && AllDigits(s[1..]) then Some(DigitsValue(s[1..]))
    else if |s| >= 1 && AllDigits(s) then Some(DigitsValue(s))
    else None
  }

  function Digit(d: nat): (c: char)
    requires d < 10
    ensures IsDigit(c) && c as int - '0' as int == d
  {
    ('0' as int + d) as char
  }

  /** Decimal rendering of a natural number, as `String(n)` gives it. */
  function ShowNat(n: nat): (s: string)
    ensures |s| >= 1 && AllDigits(s)
  {
    if n < 10 then [Digit(n)] else ShowNat(n / 10) + [Digit(n % 10)]
  }

  /** Decimal rendering of an integer, as `String(n)` gives it. */
  function ShowNumber(n: int): (s: string)
    ensures IsDecimal(s)
  {
    if n < 0 then "-" + ShowNat(-n) else ShowNat(n)
  }

  lemma {:induction false} DigitsValueOfShowNat(n: nat)
    ensures DigitsValue(ShowNat(n)) == n
  {
    var s := ShowNat(n);
    if n < 10 {
      assert s[..|s| - 1] == [];
    } else {
      assert s[..|s| - 1] == ShowNat(n / 10);
      DigitsValueOfShowNat(n / 10);
    }
  }

  /** Parsing the rendering of any integer gives the integer back. */
  lemma ParseShowRoundTrip(n: int)
    ensures ParseNumber(ShowNumber(n)) == Some(n)
  {
    var s := ShowNumber(n);
    if n < 0 {
      assert s[1..] == ShowNat(-n);
      DigitsValueOfShowNat(-n);
    } else {
      DigitsValueOfShowNat(n);
    }
  }
}
