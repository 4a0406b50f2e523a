/**
 * The JavaScript string built-ins the application relies on: `trim`, `toLowerCase`,
 * `toUpperCase`, `includes`, `startsWith`, `Number.prototype.toString` and `parseInt`.
 * Case mapping is modelled for ASCII letters only.
 */
module Text {

  /** The characters `String.prototype.trim` removes: ECMAScript WhiteSpace and LineTerminator. */
  predicate IsSpace(c: char) {
    c == ' ' || c == '\t' || c == '\n' || c == '\r' || c == '\U{000B}' || c == '\U{000C}'
    || c == '\U{00A0}' || c == '\U{1680}' || ('\U{2000}' <= c <= '\U{200A}')
    || c == '\U{2028}' || c == '\U{2029}' || c == '\U{202F}' || c == '\U{205F}'
    || c == '\U{3000}' || c == '\U{FEFF}'
  }

  function TrimStart(s: string): (r: string)
    ensures |r| <= |s| && r == s[|s| - |r|..]
    ensures r != [] ==> !IsSpace(r[0])
    ensures forall i :: 0 <= i < |s| - |r| ==> IsSpace(s[i])
  {
    if s != [] && IsSpace(s[0]) then TrimStart(s[1..]) else s
  }

  function TrimEnd(s: string): (r: string)
    ensures |r| <= |s| && r == s[..|r|]
    ensures r != [] ==> !IsSpace(r[|r| - 1])
    ensures forall i :: |r| <= i < |s| ==> IsSpace(s[i])
  {
    if s != [] && IsSpace(s[|s| - 1]) then TrimEnd(s[..|s| - 1]) else s
  }

  /** `s.trim()` */
  function Trim(s: string): string {
    TrimEnd(TrimStart(s))
  }

  /** `!s.trim()` and `s.trim() === ""`: nothing is left once surrounding white space is removed. */
  predicate IsBlank(s: string) {
    Trim(s) == ""
  }

  /** A string is blank exactly when every character of it is white space. */
  lemma BlankIffAllSpace(s: string)
    ensures IsBlank(s) <==> forall i :: 0 <= i < |s| ==> IsSpace(s[i])
  {
    var t := TrimStart(s);
    if t != [] {
      assert t[0] == s[|s| - |t|];
    }
  }

  function LowerChar(c: char): (r: char)
    ensures 'A' <= c <= 'Z' ==> 'a' <= r <= 'z'
    ensures !('A' <= c <= 'Z') ==> r == c
  {
    if 'A' <= c <= 'Z' then (c as int + 32) as char else c
  }

  function UpperChar(c: char): (r: char)
    ensures 'a' <= c <= 'z' ==> 'A' <= r <= 'Z'
    ensures !('a' <= c <= 'z') ==> r == c
  {
    if 'a' <= c <= 'z' then (c as int - 32) as char else c
  }

  /** `s.toLowerCase()` */
  function ToLower(s: string): (r: string)
    ensures |r| == |s|
    ensures forall i :: 0 <= i < |s| ==> r[i] == LowerChar(s[i])
  {
    seq(|s|, i requires 0 <= i < |s| => LowerChar(s[i]))
  }

  /** Lower-casing twice is lower-casing once. */
  lemma ToLowerIdempotent(s: string)
    ensures ToLower(ToLower(s)) == ToLower(s)
  {
  }

  /** `sub` occurs in `s` starting at position `i`. */
  predicate OccursAt(s: string, sub: string, i: int) {
    0 <= i <= |s| - |sub| && s[i..i + |sub|] == sub
  }

  /** `s.includes(sub)`: `sub` occurs in `s` at some position. */
  function Contains(s: string, sub: string): (r: bool)
    ensures r <==> exists i :: OccursAt(s, sub, i)
  {
    if sub <= s then
      assert OccursAt(s, sub, 0);
      true
    else if s == [] then
      assert forall i :: !OccursAt(s, sub, i);
      false
    else
      var r := Contains(s[1..], sub);
      assert forall i :: OccursAt(s[1..], sub, i) <==> OccursAt(s, sub, i + 1);
      assert !OccursAt(s, sub, 0);
      assert forall i :: OccursAt(s, sub, i) ==> i == 0 || OccursAt(s[1..], sub, i - 1);
      r
  }

  /** `s.startsWith(prefix)` */
  predicate StartsWith(s: string, prefix: string) {
    prefix <= s
  }

  /** `s.charAt(0).toUpperCase()`: the first character upper-cased, or "" for "". */
  function UpperInitial(s: string): (r: string)
    ensures s == "" ==> r == ""
    ensures s != "" ==> |r| == 1 && r[0] == UpperChar(s[0])
  {
    if s == "" then "" else [UpperChar(s[0])]
  }

  // ---------------------------------------------------------------- numbers

  predicate IsDigit(c: char) {
    '0' <= c <= '9'
  }

  function DigitChar(d: nat): (c: char)
    requires d < 10
    ensures IsDigit(c) && c as int - '0' as int == d
  {
    ('0' as int + d) as char
  }

  /** The decimal digits of a natural number, most significant first, with no leading zero. */
  function NatToString(n: nat): (r: string)
    ensures r != [] && forall i :: 0 <= i < |r| ==> IsDigit(r[i])
    ensures |r| > 1 ==> r[0] != '0'
  {
    if n < 10 then [DigitChar(n)] else NatToString(n / 10) + [DigitChar(n % 10)]
  }

  /**
   * `n.toString()` of an integer-valued number, in plain decimal digits. Numbers are unbounded
   * integers here; JavaScript writes plain digits only below 10^21 in magnitude.
   */
  function IntToString(n: int): string {
    if n < 0 then "-" + NatToString(-n) else NatToString(n)
  }

  /** The value of a string of digits in radix 10, most significant first. */
  function DecimalValue(s: string): nat
    requires forall i :: 0 <= i < |s| ==> IsDigit(s[i])
  {
    if s == [] then 0
    else
      assert IsDigit(s[|s| - 1]);
      DecimalValue(s[..|s| - 1]) * 10 + (s[|s| - 1] as int - '0' as int)
  }

  function HexDigitValue(c: char): (r: int)
    ensures -1 <= r < 16
  {
    if '0' <= c <= '9' then c as int - '0' as int
    else if 'a' <= c <= 'f' then c as int - 'a' as int + 10
    else if 'A' <= c <= 'F' then c as int - 'A' as int + 10
    else -1
  }

  /** The value of the digit of radix `radix` that `c` stands for, or -1. */
  function DigitValue(c: char, radix: nat): (r: int)
    requires radix == 10 || radix == 16
    ensures -1 <= r < radix
    ensures radix == 10 ==> (r >= 0 <==> IsDigit(c))
  {
    var v := HexDigitValue(c);
    if v < radix then v else -1
  }

  /** The length of the longest prefix of `s` made of digits of radix `radix`. */
  function DigitRun(s: string, radix: nat): (k: nat)
    requires radix == 10 || radix == 16
    ensures k <= |s|
    ensures forall i :: 0 <= i < k ==> DigitValue(s[i], radix) >= 0
    ensures k < |s| ==> DigitValue(s[k], radix) < 0
  {
    if s == [] || DigitValue(s[0], radix) < 0 then 0 else 1 + DigitRun(s[1..], radix)
  }

  /** The value of a string of digits of radix `radix`, most significant first. */
  function RadixValue(s: string, radix: nat): nat
    requires radix == 10 || radix == 16
    requires forall i :: 0 <= i < |s| ==> DigitValue(s[i], radix) >= 0
  {
    if s == [] then 0 else RadixValue(s[..|s| - 1], radix) * radix + DigitValue(s[|s| - 1], radix)
  }

  /** What `parseInt` returns: an integer, or `NaN` when no digit could be read. */
  datatype NumberValue = Num(n: int) | NaN

  /**
   * The unsigned part of `parseInt`: a `0x` or `0X` prefix selects hexadecimal, and the longest
   * run of digits that follows is the value; -1 when there is no digit.
   */
  function ParseMagnitude(u: string): (v: int)
    ensures v >= -1
  {
    var hex := |u| >= 2 && u[0] == '0' && (u[1] == 'x' || u[1] == 'X');
    var radix := if hex then 16 else 10;
    var digits := if hex then u[2..] else u;
    var k := DigitRun(digits, radix);
    if k == 0 then -1 else RadixValue(digits[..k], radix)
  }

  /**
   * `parseInt(s)` with no radix: leading white space is skipped, one sign is read, and the
   * rest is read by `ParseMagnitude`.
   */
  function ParseInt(s: string): (r: NumberValue)
    ensures r.Num? ==> s != []
  {
    var t := TrimStart(s);
    var negative := t != [] && t[0] == '-';
    var u := if t != [] && (t[0] == '-' || t[0] == '+') then t[1..] else t;
    var v := ParseMagnitude(u);
    if v < 0 then NaN else if negative then Num(-v) else Num(v)
  }

  lemma {:induction false} DecimalValueAppend(s: string, c: char)
    requires forall i :: 0 <= i < |s| ==> IsDigit(s[i])
    requires IsDigit(c)
    ensures DecimalValue(s + [c]) == DecimalValue(s) * 10 + (c as int - '0' as int)
  {
    assert (s + [c])[..|s|] == s;
  }

  lemma {:induction false} DecimalDigits(n: nat)
    ensures DecimalValue(NatToString(n)) == n
  {
    if n >= 10 {
      DecimalDigits(n / 10);
      DecimalValueAppend(NatToString(n / 10), DigitChar(n % 10));
    }
  }

  lemma {:induction false} RadixValueDecimal(s: string)
    requires forall i :: 0 <= i < |s| ==> IsDigit(s[i])
    ensures RadixValue(s, 10) == DecimalValue(s)
  {
    if s != [] {
      RadixValueDecimal(s[..|s| - 1]);
    }
  }

  lemma {:induction false} DigitRunAll(s: string)
    requires forall i :: 0 <= i < |s| ==> IsDigit(s[i])
    ensures DigitRun(s, 10) == |s|
  {
    if s != [] {
      DigitRunAll(s[1..]);
    }
  }

  lemma {:induction false} ParseDecimalMagnitude(d: string)
    requires d != [] && forall i :: 0 <= i < |d| ==> IsDigit(d[i])
    ensures ParseMagnitude(d) == DecimalValue(d)
  {
    DigitRunAll(d);
    RadixValueDecimal(d);
    assert d[..|d|] == d;
  }

  /** `parseInt` of a string that starts with neither white space nor a sign reads it whole. */
  lemma ParseIntUnsigned(s: string)
    requires s != [] && !IsSpace(s[0]) && s[0] != '-' && s[0] != '+'
    ensures ParseInt(s) == if ParseMagnitude(s) < 0 then NaN else Num(ParseMagnitude(s))
  {
    assert TrimStart(s) == s;
  }

  /** `parseInt` of a minus sign followed by a string that `ParseMagnitude` reads. */
  lemma ParseIntNegative(u: string)
    ensures ParseInt("-" + u) == if ParseMagnitude(u) < 0 then NaN else Num(-ParseMagnitude(u))
  {
    var s := "-" + u;
    assert !IsSpace(s[0]);
    assert TrimStart(s) == s;
    assert s[1..] == u;
  }

  /** What `age.toString()` writes, `parseInt` reads back, for every unbounded integer of the model. */
  lemma ParseIntToString(n: int)
    ensures ParseInt(IntToString(n)) == Num(n)
  {
    var m: nat := if n < 0 then -n else n;
    var d := NatToString(m);
    DecimalDigits(m);
    ParseDecimalMagnitude(d);
    if n < 0 {
      ParseIntNegative(d);
    } else {
      assert IsDigit(d[0]);
      ParseIntUnsigned(d);
    }
  }
}
