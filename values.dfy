/** Runtime values a Lox literal can hold, and their JavaScript text forms.
    The model takes the value type `LoxObject` to be the union
    `null | boolean | string | number`, with numbers restricted to integers
    (see README, "Left out"). */
module LoxValues {

  datatype LoxObject = Nil | Bool(b: bool) | Str(s: string) | Num(n: int)

  /** The character for a decimal digit. */
  function DigitChar(d: nat): (c: char)
    requires d < 10
    ensures '0' <= c <= '9'
  {
    "0123456789"[d]
  }

  /** The digit a decimal digit character stands for. */
  function DigitValue(c: char): (d: nat)
    requires '0' <= c <= '9'
    ensures d < 10 && DigitChar(d) == c
  {
    (c as int - '0' as int) as nat
  }

  predicate IsDigits(s: string) {
    forall i :: 0 <= i < |s| ==> '0' <= s[i] <= '9'
  }

  /** Decimal rendering of a natural number, most significant digit first,
      without leading zeros. */
  function NatToString(n: nat): (s: string)
    ensures |s| > 0 && IsDigits(s)
    ensures |s| > 1 ==> s[0] != '0'
    decreases n
  {
    if n < 10 then [DigitChar(n)] else NatToString(n / 10) + [DigitChar(n % 10)]
  }

  /** Reads a string of decimal digits back into the number it denotes. */
  function ParseDigits(s: string): (n: nat)
    requires IsDigits(s)
    decreases |s|
  {
    if s == [] then 0 else ParseDigits(s[..|s| - 1]) * 10 + DigitValue(s[|s| - 1])
  }

  /** The text `Number.prototype.toString` gives an integer: an optional
      minus sign and the decimal digits of its magnitude. */
  function IntToString(n: int): (s: string)
  {
    if n < 0 then "-" + NatToString(-n) else NatToString(n)
  }

  /** The text JavaScript's `String(v)` (and a template-literal hole) gives
      a value: `null` for null, `true`/`false`, the string itself, the number's
      decimal form. */
  function Stringify(v: LoxObject): (s: string)
  {
    match v
    case Nil => "null"
    case Bool(b) => if b then "true" else "false"
    case Str(s) => s
    case Num(n) => IntToString(n)
  }

  /** Reading the decimal form back yields the number: the rendering loses nothing. */
  lemma {:induction false} NatToStringRoundTrip(n: nat)
    ensures ParseDigits(NatToString(n)) == n
    decreases n
  {
    var s := NatToString(n);
    if n >= 10 {
      NatToStringRoundTrip(n / 10);
      assert s[..|s| - 1] == NatToString(n / 10);
    }
  }

  /** An integer's text is a non-empty run of digits, with one minus sign in
      front exactly when the integer is negative, and it reads back to the
      integer. */
  lemma IntToStringRoundTrip(n: int)
    ensures |IntToString(n)| > 0
    ensures n < 0 <==> IntToString(n)[0] == '-'
    ensures n < 0 ==> IntToString(n) == "-" + NatToString(-n) && ParseDigits(NatToString(-n)) == -n
    ensures n >= 0 ==> IntToString(n) == NatToString(n) && ParseDigits(NatToString(n)) == n
  {
    if n < 0 {
      NatToStringRoundTrip(-n);
    } else {
      NatToStringRoundTrip(n);
      assert '0' <= NatToString(n)[0] <= '9';
    }
  }

  /** Distinct integers have distinct texts. */
  lemma IntToStringInjective(m: int, n: int)
    ensures IntToString(m) == IntToString(n) ==> m == n
  {
    IntToStringRoundTrip(m);
    IntToStringRoundTrip(n);
    if IntToString(m) == IntToString(n) && m < 0 {
      assert NatToString(-m) == IntToString(m)[1..] == NatToString(-n);
    }
  }

  /** The text of an integer never holds a parenthesis or a space. */
  lemma IntToStringPlain(n: int)
    ensures '(' !in IntToString(n) && ')' !in IntToString(n) && ' ' !in IntToString(n)
  {
    var s := IntToString(n);
    var d := if n < 0 then s[1..] else s;
    assert IsDigits(d);
    if n < 0 {
      assert s == "-" + d;
      assert forall i :: 0 <= i < |s| ==> s[i] == '-' || '0' <= s[i] <= '9' by {
        forall i | 0 <= i < |s| ensures s[i] == '-' || '0' <= s[i] <= '9' {
          if i > 0 { assert s[i] == d[i - 1]; }
        }
      }
    }
  }
}
