/**
 * JavaScript identities as the plugin sees them. A uid, cid, tid or pid arrives
 * either as a number or as a string; the sorted-set store keeps members as
 * strings (`String(x)`), and `getSubscribers` compares identities through
 * `parseInt(x, 10)`. Both conversions are written out here.
 */
module JsValues {

  /** A JavaScript value used as an identity. */
  datatype Id = Str(s: string) | Num(n: int)

  /** What `parseInt` returns: an integer or NaN. */
  datatype JsNumber = NaN | Int(v: int)

  predicate IsDigit(c: char) { '0' <= c <= '9' }

  predicate AllDigits(s: string) { forall i :: 0 <= i < |s| ==> IsDigit(s[i]) }

  /** The leading white space `parseInt` skips (the ASCII part of JavaScript's StrWhiteSpaceChar). */
  predicate IsSpace(c: char) {
    c == ' ' || c == '\t' || c == '\n' || c == '\r' || c == '\U{000B}' || c == '\U{000C}'
  }

  function DigitChar(d: nat): (c: char)
    requires d < 10
    ensures IsDigit(c) && (c as int) - ('0' as int) == d
  {
    (('0' as int) + d) as char
  }

  /** The decimal digits of `n`, most significant first, without leading zeros. */
  function NatDigits(n: nat): (s: string)
    ensures s != [] && AllDigits(s)
    ensures s[0] == '0' ==> n == 0
    decreases n
  {
    if n < 10 then [DigitChar(n)] else NatDigits(n / 10) + [DigitChar(n % 10)]
  }

  /** `String(n)` for an integer `n`. */
  function DecimalString(n: int): string {
    if n < 0 then "-" + NatDigits(-n) else NatDigits(n)
  }

  /** `String(x)`: how the store and string concatenation see an identity. */
  function ToStr(id: Id): string {
    match id
    case Str(s) => s
    case Num(n) => DecimalString(n)
  }

  /** The value of a run of decimal digits; leading zeros are allowed. */
  function DigitsValue(s: string): nat
    requires AllDigits(s)
  {
    if s == [] then 0 else DigitsValue(s[..|s| - 1]) * 10 + ((s[|s| - 1] as int) - ('0' as int))
  }

  function TrimStart(s: string): (r: string)
    ensures |r| <= |s| && r == s[|s| - |r|..]
    ensures r == [] || !IsSpace(r[0])
  {
    if s != [] && IsSpace(s[0]) then TrimStart(s[1..]) else s
  }

  /** The longest prefix of `s` made of decimal digits. */
  function DigitPrefix(s: string): (d: string)
    ensures AllDigits(d) && |d| <= |s| && d == s[..|d|]
    ensures |d| < |s| ==> !IsDigit(s[|d|])
  {
    if s != [] && IsDigit(s[0]) then [s[0]] + DigitPrefix(s[1..]) else []
  }

  /**
   * `parseInt(s, 10)`: skip leading white space, read an optional sign, then
   * the longest run of decimal digits; NaN when that run is empty.
   */
  function ParseIntString(s: string): (r: JsNumber)
    ensures TrimStart(s) == [] ==> r == NaN
    ensures s != [] && !IsSpace(s[0]) && !IsDigit(s[0]) && s[0] != '-' && s[0] != '+' ==> r == NaN
  {
    var t := TrimStart(s);
    var negative := t != [] && t[0] == '-';
    var body := if t != [] && (t[0] == '-' || t[0] == '+') then t[1..] else t;
    var d := DigitPrefix(body);
    var value: int := DigitsValue(d);
    if d == [] then NaN else Int(if negative then -value else value)
  }

  /** `parseInt(x, 10)` for a number or a string: the number is first turned into its string. */
  function ParseInt(id: Id): JsNumber {
    ParseIntString(ToStr(id))
  }

  /** `parseInt(a, 10) === parseInt(b, 10)`: NaN is equal to nothing, itself included. */
  predicate SameNumber(a: JsNumber, b: JsNumber) {
    a.Int? && b.Int? && a.v == b.v
  }

  lemma {:induction false} DigitPrefixOfDigits(s: string)
    requires AllDigits(s)
    ensures DigitPrefix(s) == s
  {
    if s != [] {
      DigitPrefixOfDigits(s[1..]);
    }
  }

  lemma {:induction false} DigitsValueOfNatDigits(n: nat)
    ensures DigitsValue(NatDigits(n)) == n
    decreases n
  {
    var s := NatDigits(n);
    if n >= 10 {
      DigitsValueOfNatDigits(n / 10);
      assert s[..|s| - 1] == NatDigits(n / 10);
    }
  }

  /** A non-empty run of digits parses to its value, whatever its leading zeros. */
  lemma ParseDigits(s: string)
    requires s != [] && AllDigits(s)
    ensures ParseIntString(s) == Int(DigitsValue(s))
  {
    assert !IsSpace(s[0]);
    DigitPrefixOfDigits(s);
  }

  /** `parseInt(String(n), 10) == n` for every integer `n`. */
  lemma ParseDecimalString(n: int)
    ensures ParseIntString(DecimalString(n)) == Int(n)
  {
    if n < 0 {
      ParseNegative(-n);
    } else {
      DigitsValueOfNatDigits(n);
      ParseDigits(NatDigits(n));
    }
  }

  lemma ParseNegative(m: nat)
    requires m > 0
    ensures ParseIntString("-" + NatDigits(m)) == Int(-(m as int))
  {
    var s := "-" + NatDigits(m);
    assert s[0] == '-' && !IsSpace(s[0]);
    assert TrimStart(s) == s;
    assert s[1..] == NatDigits(m);
    DigitPrefixOfDigits(NatDigits(m));
    DigitsValueOfNatDigits(m);
    var value: int := DigitsValue(NatDigits(m));
    assert value == m;
  }

  /** Leading white space does not change what `parseInt` reads. */
  lemma ParseSkipsSpace(c: char, s: string)
    requires IsSpace(c)
    ensures ParseIntString([c] + s) == ParseIntString(s)
  {
    assert ([c] + s)[1..] == s;
  }

  lemma {:induction false} DigitPrefixStops(d: string, rest: string)
    requires AllDigits(d)
    requires rest == [] || !IsDigit(rest[0])
    ensures DigitPrefix(d + rest) == d
  {
    if d != [] {
      assert (d + rest)[1..] == d[1..] + rest;
      DigitPrefixStops(d[1..], rest);
    }
  }

  /** `parseInt` reads the leading digits and ignores whatever follows them (`"12abc"` is 12). */
  lemma ParseIgnoresTrailing(d: string, rest: string)
    requires d != [] && AllDigits(d)
    requires rest == [] || !IsDigit(rest[0])
    ensures ParseIntString(d + rest) == Int(DigitsValue(d))
  {
    var s := d + rest;
    assert s[0] == d[0] && IsDigit(s[0]);
    assert TrimStart(s) == s;
    assert s[0] != '-' && s[0] != '+';
    DigitPrefixStops(d, rest);
    var value: int := DigitsValue(d);
    assert ParseIntString(s) == Int(value);
  }

  /**
   * A number and any digit string of the same value (`7`, `"7"`, `"007"`)
   * have the same `parseInt` value.
   */
  lemma NumberAndDigitStringAgree(n: nat, s: string)
    requires s != [] && AllDigits(s) && DigitsValue(s) == n
    ensures ParseInt(Str(s)) == ParseInt(Num(n)) == Int(n)
  {
    ParseDigits(s);
    ParseDecimalString(n);
  }
}
