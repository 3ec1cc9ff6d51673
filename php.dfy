/** The PHP values the library passes around, the three coercions its code
    relies on (truthiness `if ($v)`, string interpolation `"{$v}"` and the
    loose comparison `$v == 0` under PHP 8 rules), and ASCII lower-casing. */
module Php {

  /** A PHP value as it reaches the library: scalars and (list-like) arrays.
      Floats are not a kind of value here: a float argument (a `range`
      bound, a `term` value, a latitude) is given as the text PHP
      interpolates it to, so the float `0.0`, which PHP finds falsy, becomes
      the truthy `Str("0.0")`. */
  datatype Value =
    | Null
    | Bool(b: bool)
    | Int(i: int)
    | Str(s: string)
    | Arr(items: seq<Value>)

  /** The values PHP's manual lists as converting to `false` (floats aside). */
  const FalsyValues: set<Value> := {Null, Bool(false), Int(0), Str(""), Str("0"), Arr([])}

  /** PHP's conversion to boolean: false exactly for the listed values. */
  predicate Truthy(v: Value): (b: bool)
    ensures b <==> v !in FalsyValues
  {
    match v
    case Null => false
    case Bool(b) => b
    case Int(i) => i != 0
    case Str(s) => s != "" && s != "0"
    case Arr(items) => items != []
  }

  predicate IsDigit(c: char) {
    '0' <= c <= '9'
  }

  function DigitChar(d: nat): (c: char)
    requires d < 10
    ensures IsDigit(c)
  {
    "0123456789"[d]
  }

  /** Decimal rendering of a natural number, most significant digit first. */
  function NatToString(n: nat): (r: string)
    ensures r != []
    ensures forall i | 0 <= i < |r| :: IsDigit(r[i])
    ensures n != 0 ==> r[0] != '0'
  {
    if n < 10 then [DigitChar(n)] else NatToString(n / 10) + [DigitChar(n % 10)]
  }

  /** Decimal rendering of an integer, with a leading '-' when negative. */
  function IntToString(i: int): (r: string)
    ensures r != [] && r != "0" <==> i != 0
    ensures forall k | 0 <= k < |r| :: IsDigit(r[k]) || r[k] == '-'
  {
    if i < 0 then "-" + NatToString(-i) else NatToString(i)
  }

  /** String interpolation `"{$v}"`: empty only for null, false and the
      empty string; a number or boolean renders as digits and signs. */
  function Interpolate(v: Value): (r: string)
    ensures r == "" <==> v == Null || v == Bool(false) || v == Str("")
    ensures v.Int? || v.Bool? ==> forall k | 0 <= k < |r| :: IsDigit(r[k]) || r[k] == '-'
  {
    match v
    case Null => ""
    case Bool(b) => if b then "1" else ""
    case Int(i) => IntToString(i)
    case Str(s) => s
    case Arr(_) => "Array"
  }

  predicate IsWhitespace(c: char) {
    c == ' ' || c == '\t' || c == '\n' || c == '\r' || c as int == 11 || c as int == 12
  }

  function TrimStart(s: string): string {
    if s != [] && IsWhitespace(s[0]) then TrimStart(s[1..]) else s
  }

  function TrimEnd(s: string): string {
    if s != [] && IsWhitespace(s[|s| - 1]) then TrimEnd(s[..|s| - 1]) else s
  }

  function DropSign(s: string): string {
    if s != [] && (s[0] == '+' || s[0] == '-') then s[1..] else s
  }

  predicate AllZeros(s: string) {
    forall i | 0 <= i < |s| :: s[i] == '0'
  }

  /** A mantissa (`LNUM` or `DNUM` in PHP's grammar) whose every digit is zero. */
  predicate ZeroMantissa(m: string) {
    (m != [] && AllZeros(m))
    || (|m| > 1 && exists d | 0 <= d < |m| :: m[d] == '.' && AllZeros(m[..d]) && AllZeros(m[d + 1..]))
  }

  predicate ExponentDigits(x: string) {
    var y := DropSign(x);
    y != [] && forall i | 0 <= i < |y| :: IsDigit(y[i])
  }

  /** A PHP 8 numeric string whose value is zero: surrounding whitespace, an
      optional sign, a zero mantissa and an optional exponent. */
  predicate ZeroNumeral(s: string) {
    var u := DropSign(TrimEnd(TrimStart(s)));
    ZeroMantissa(u)
    || exists e | 0 < e < |u| :: (u[e] == 'e' || u[e] == 'E') && ZeroMantissa(u[..e]) && ExponentDigits(u[e + 1..])
  }

  /** PHP 8's loose comparison `$v == 0`: null and false equal 0, a numeric
      string compares by value, any other string compares as text with "0",
      and an array never equals an integer. Apart from strings, that is
      exactly the falsy non-arrays; unlike PHP 7, the empty string is not
      loosely 0. */
  predicate LooselyZero(v: Value): (r: bool)
    ensures !v.Str? ==> (r <==> !Truthy(v) && !v.Arr?)
    ensures v == Str("0") ==> r
    ensures v == Str("") ==> !r
  {
    match v
    case Null => true
    case Bool(b) => !b
    case Int(i) => i == 0
    case Str(s) => ZeroNumeral(s)
    case Arr(_) => false
  }

  /** `strtolower` on ASCII letters; PHP folds method names the same way
      when it looks them up. */
  function Lower(s: string): (r: string)
    ensures |r| == |s|
    ensures forall i | 0 <= i < |s| :: r[i] == if 'A' <= s[i] <= 'Z' then (s[i] as int + 32) as char else s[i]
  {
    if s == [] then [] else [if 'A' <= s[0] <= 'Z' then (s[0] as int + 32) as char else s[0]] + Lower(s[1..])
  }

  /** A text without capitals is its own lower case. */
  lemma LowerKeeps(s: string)
    requires forall i | 0 <= i < |s| :: !('A' <= s[i] <= 'Z')
    ensures Lower(s) == s
  {
    assert forall i | 0 <= i < |s| :: Lower(s)[i] == s[i];
  }

  /** Lower-casing twice is lower-casing once. */
  lemma LowerIdempotent(s: string)
    ensures Lower(Lower(s)) == Lower(s)
  {
    var low := Lower(s);
    forall i | 0 <= i < |low| ensures !('A' <= low[i] <= 'Z') {
      if 'A' <= s[i] <= 'Z' {
        assert low[i] as int == s[i] as int + 32;
      }
    }
    LowerKeeps(low);
  }
}
