/** The few pieces of JavaScript value semantics the pages rely on:
    nullable strings, truthiness, the `||` operator, `parseInt(s, 10)`,
    the conversion of a number to its decimal string, `startsWith`, and
    the whitespace that `String.prototype.trim` removes. */
module Js {

  /** A string-valued property that may be `null`/`undefined` (None). */
  datatype Option<+T> = None | Some(value: T) {
    function GetOr(default: T): T {
      match this
      case Some(v) => v
      case None => default
    }
  }

  /** A number as JavaScript produces it from `parseInt`: an integer or NaN. */
  datatype Num = Int(i: int) | NaN

  /** A nullable string is truthy iff it is present and not the empty string. */
  predicate Truthy(v: Option<string>) {
    v.Some? && v.value != ""
  }

  /** `s || null` for a string `s`. */
  function OrNull(s: string): (r: Option<string>)
    ensures Truthy(r) <==> s != ""
    ensures r.Some? ==> r.value == s
    ensures r.None? <==> s == ""
  {
    if s == "" then None else Some(s)
  }

  /** `v || null` for a nullable string `v`: the empty string becomes null. */
  function NullIfFalsy(v: Option<string>): (r: Option<string>)
    ensures Truthy(r) == Truthy(v)
    ensures Truthy(v) ==> r == v
    ensures !Truthy(v) ==> r == None
  {
    if Truthy(v) then v else None
  }

  /** `a || b` on nullable strings: the first operand if it is truthy, else the second. */
  function Or(a: Option<string>, b: Option<string>): (r: Option<string>)
    ensures Truthy(r) <==> Truthy(a) || Truthy(b)
    ensures Truthy(a) ==> r == a
    ensures !Truthy(a) ==> r == b
  {
    if Truthy(a) then a else b
  }

  /** `s.startsWith(prefix)` */
  predicate StartsWith(s: string, prefix: string) {
    prefix <= s
  }

  predicate IsDigit(c: char) {
    '0' <= c <= '9'
  }

  function DigitValue(c: char): (d: nat)
    requires IsDigit(c)
    ensures d < 10
  {
    c as int - '0' as int
  }

  function DigitChar(d: nat): (c: char)
    requires d < 10
    ensures IsDigit(c) && DigitValue(c) == d
  {
    (d + '0' as int) as char
  }

  predicate AllDigits(s: string) {
    forall i :: 0 <= i < |s| ==> IsDigit(s[i])
  }

  /** The length of the longest prefix of `s` made of decimal digits. */
  function DigitPrefixLength(s: string): (n: nat)
    ensures n <= |s|
    ensures AllDigits(s[..n])
    ensures n < |s| ==> !IsDigit(s[n])
  {
    if s == [] || !IsDigit(s[0]) then 0
    else
      var m := DigitPrefixLength(s[1..]);
      assert s[1..][..m] == s[1..m + 1];
      1 + m
  }

  /** The value of a string of decimal digits, most significant first. */
  function DigitsValue(s: string): nat
    requires AllDigits(s)
  {
    if s == [] then 0
    else DigitsValue(s[..|s| - 1]) * 10 + DigitValue(s[|s| - 1])
  }

  /** `parseInt(s, 10)`: an optional sign followed by the longest run of
      digits; trailing characters are ignored; no digits at all gives NaN. */
  function ParseInt(s: string): (r: Num)
    ensures (s == [] || (!IsDigit(s[0]) && s[0] != '-' && s[0] != '+')) ==> r == NaN
  {
    var signed := |s| > 0 && (s[0] == '-' || s[0] == '+');
    var body := if signed then s[1..] else s;
    var n := DigitPrefixLength(body);
    if n == 0 then NaN
    else
      var v: int := DigitsValue(body[..n]);
      Int(if signed && s[0] == '-' then -v else v)
  }

  /** The decimal representation of a natural number, without leading zeros. */
  function NatToString(n: nat): (s: string)
    ensures |s| > 0 && AllDigits(s)
    ensures s[0] == '0' ==> n == 0
  {
    if n < 10 then [DigitChar(n)] else NatToString(n / 10) + [DigitChar(n % 10)]
  }

  /** `String(i)` / `${i}` for an integer. */
  function IntToString(i: int): (s: string)
    ensures |s| > 0
  {
    if i < 0 then "-" + NatToString(-i) else NatToString(i)
  }

  lemma {:induction false} DigitsValueOfNatToString(n: nat)
    ensures DigitsValue(NatToString(n)) == n
  {
    if n >= 10 {
      var s := NatToString(n);
      assert s[..|s| - 1] == NatToString(n / 10);
      DigitsValueOfNatToString(n / 10);
    }
  }

  lemma {:induction false} DigitPrefixOfAllDigits(s: string)
    requires AllDigits(s)
    ensures DigitPrefixLength(s) == |s|
  {
    if s != [] {
      DigitPrefixOfAllDigits(s[1..]);
    }
  }

  /** Reading back a page number: `parseInt(String(i), 10) == i` for every integer. */
  lemma ParseIntOfIntToString(i: int)
    ensures ParseInt(IntToString(i)) == Int(i)
  {
    var n: nat := if i < 0 then -i else i;
    var digits := NatToString(n);
    DigitPrefixOfAllDigits(digits);
    DigitsValueOfNatToString(n);
    assert digits[..|digits|] == digits;
    if i < 0 {
      assert IntToString(i)[1..] == digits;
    }
  }

  /** The default page `'1'` parses to 1. */
  lemma ParseIntOfOne()
    ensures ParseInt("1") == Int(1)
  {
    ParseIntOfIntToString(1);
    assert IntToString(1) == "1";
  }

  /** The characters `String.prototype.trim` removes: the ECMAScript
      WhiteSpace and LineTerminator code points. */
  predicate IsJsWhitespace(c: char) {
    c == '\t' || c == '\n' || c == '\U{000B}' || c == '\U{000C}' || c == '\r' || c == ' '
    || c == '\U{00A0}' || c == '\U{1680}' || ('\U{2000}' <= c <= '\U{200A}')
    || c == '\U{2028}' || c == '\U{2029}' || c == '\U{202F}' || c == '\U{205F}'
    || c == '\U{3000}' || c == '\U{FEFF}'
  }

  /** `!s.trim()`: the string is empty once surrounding whitespace is removed. */
  predicate IsBlank(s: string) {
    forall i :: 0 <= i < |s| ==> IsJsWhitespace(s[i])
  }
}
