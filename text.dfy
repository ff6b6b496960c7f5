/**
 * Number formatting and parsing as the C and C++ libraries do it for the
 * programs of the garden: `operator<<` on integers (decimal, and upper-case
 * hexadecimal under `std::hex << std::uppercase`), `isdigit`, and `atol`.
 */
module Text {

  /** Largest and smallest `long`: the target is 32-bit ARM Linux, where `long` has 32 bits. */
  const LONG_MAX: int := 0x7FFF_FFFF
  const LONG_MIN: int := -0x8000_0000

  /** Number of values of a `uint32_t`. */
  const TWO_32: int := 0x1_0000_0000

  predicate IsDigit(c: char) { '0' <= c <= '9' }

  predicate IsUpperHexDigit(c: char) { IsDigit(c) || 'A' <= c <= 'F' }

  predicate AllDigits(s: string) { forall i :: 0 <= i < |s| ==> IsDigit(s[i]) }

  predicate AllUpperHex(s: string) { forall i :: 0 <= i < |s| ==> IsUpperHexDigit(s[i]) }

  /** `isspace` in the C locale. */
  predicate IsSpace(c: char) { c == ' ' || c == '\t' || c == '\n' || c == '\r' || c == 11 as char || c == 12 as char }

  function DigitChar(d: nat): (c: char)
    requires d < 10
    ensures IsDigit(c)
  {
    ('0' as int + d) as char
  }

  function HexChar(d: nat): (c: char)
    requires d < 16
    ensures IsUpperHexDigit(c)
  {
    if d < 10 then ('0' as int + d) as char else ('A' as int + d - 10) as char
  }

  function DigitVal(c: char): (d: nat)
    requires IsDigit(c)
    ensures d < 10 && DigitChar(d) == c
  {
    c as int - '0' as int
  }

  function HexVal(c: char): (d: nat)
    requires IsUpperHexDigit(c)
    ensures d < 16 && HexChar(d) == c
  {
    if IsDigit(c) then c as int - '0' as int else c as int - 'A' as int + 10
  }

  /** The value of a string of decimal digits, most significant first. */
  function DecValue(s: string): nat
    requires AllDigits(s)
  {
    if s == [] then 0 else DecValue(s[..|s| - 1]) * 10 + DigitVal(s[|s| - 1])
  }

  /** The value of a string of upper-case hexadecimal digits, most significant first. */
  function HexValue(s: string): nat
    requires AllUpperHex(s)
  {
    if s == [] then 0 else HexValue(s[..|s| - 1]) * 16 + HexVal(s[|s| - 1])
  }

  /**
   * A natural number as `operator<<` writes it in decimal: digits only, no
   * padding, no leading zero; reading the digits back gives the number.
   */
  function NatToDec(n: nat): (s: string)
    ensures |s| >= 1 && AllDigits(s)
    ensures |s| > 1 ==> s[0] != '0'
    ensures DecValue(s) == n
  {
    if n < 10 then [DigitChar(n)]
    else
      var hi := NatToDec(n / 10);
      var s := hi + [DigitChar(n % 10)];
      assert s[..|s| - 1] == hi;
      s
  }

  /**
   * An integer as `operator<<` writes it in decimal: a minus sign exactly for
   * a negative value, then the digits of its magnitude, which read back as
   * that magnitude.
   */
  function IntToDec(n: int): (s: string)
    ensures |s| >= 1 && (s[0] == '-' <==> n < 0)
    ensures var m := if n < 0 then s[1..] else s;
      |m| >= 1 && AllDigits(m) && (|m| > 1 ==> m[0] != '0') && DecValue(m) == (if n < 0 then -n else n)
  {
    if n < 0 then
      var s := "-" + NatToDec(-n);
      assert s[1..] == NatToDec(-n);
      s
    else NatToDec(n)
  }

  /**
   * A natural number as `std::hex << std::uppercase` writes it: upper-case
   * hexadecimal digits, no `0x`, no padding, no leading zero.
   */
  function NatToHex(n: nat): (s: string)
    ensures |s| >= 1 && AllUpperHex(s)
    ensures |s| > 1 ==> s[0] != '0'
    ensures HexValue(s) == n
  {
    if n < 16 then [HexChar(n)]
    else
      var hi := NatToHex(n / 16);
      var s := hi + [HexChar(n % 16)];
      assert s[..|s| - 1] == hi;
      s
  }

  /** The longest prefix of `s` made of decimal digits. */
  function DigitPrefix(s: string): (p: string)
    ensures AllDigits(p) && p <= s
    ensures |p| < |s| ==> !IsDigit(s[|p|])
  {
    if s == [] || !IsDigit(s[0]) then [] else [s[0]] + DigitPrefix(s[1..])
  }

  /** `s` without its leading white space. */
  function SkipSpace(s: string): (t: string)
    ensures |t| <= |s| && t == s[|s| - |t|..]
    ensures t != [] ==> !IsSpace(t[0])
  {
    if s != [] && IsSpace(s[0]) then SkipSpace(s[1..]) else s
  }

  function ClampLong(v: int): (r: int)
    ensures LONG_MIN <= r <= LONG_MAX
    ensures LONG_MIN <= v <= LONG_MAX ==> r == v
  {
    if v > LONG_MAX then LONG_MAX else if v < LONG_MIN then LONG_MIN else v
  }

  /**
   * `atol`, which glibc implements as `strtol(s, NULL, 10)`: leading white
   * space, an optional sign, then as many decimal digits as there are; a
   * value out of range saturates at `LONG_MAX` or `LONG_MIN`; no digits give 0.
   */
  function Atol(s: string): (v: int)
    ensures LONG_MIN <= v <= LONG_MAX
    ensures v < 0 ==> SkipSpace(s) != [] && SkipSpace(s)[0] == '-'
    ensures SkipSpace(s) == [] || !(IsDigit(SkipSpace(s)[0]) || SkipSpace(s)[0] == '-' || SkipSpace(s)[0] == '+') ==> v == 0
  {
    var t := SkipSpace(s);
    var signed := t != [] && (t[0] == '-' || t[0] == '+');
    var m: int := DecValue(DigitPrefix(if signed then t[1..] else t));
    if !signed && (t == [] || !IsDigit(t[0])) then
      assert DigitPrefix(t) == [];
      0
    else if signed && t[0] == '-' then ClampLong(-m)
    else ClampLong(m)
  }

  /** Conversion of an integer to `uint32_t`: reduction modulo 2^32. */
  function ToU32(v: int): (r: nat)
    ensures r < TWO_32
    ensures 0 <= v < TWO_32 ==> r == v
  {
    v % TWO_32
  }

  /** The digit prefix of a digit string followed by a non-digit is that digit string. */
  lemma {:induction false} DigitPrefixOfDigits(d: string, tail: string)
    requires AllDigits(d)
    requires tail == [] || !IsDigit(tail[0])
    ensures DigitPrefix(d + tail) == d
  {
    if d != [] {
      assert (d + tail)[1..] == d[1..] + tail;
      DigitPrefixOfDigits(d[1..], tail);
    }
  }

  /**
   * `atol` reads back what `operator<<` wrote for a value that fits in a
   * `long`, whatever non-digit text follows it on the line.
   */
  lemma AtolOfDecimal(n: nat, tail: string)
    requires n <= LONG_MAX
    requires tail == [] || !IsDigit(tail[0])
    ensures Atol(NatToDec(n) + tail) == n
  {
    var d := NatToDec(n);
    assert (d + tail)[0] == d[0];
    AtolUnsigned(d + tail);
    DigitPrefixOfDigits(d, tail);
  }

  /** `atol` of text that starts with a digit: the value of its leading digits, saturated. */
  lemma AtolUnsigned(s: string)
    requires s != [] && IsDigit(s[0])
    ensures Atol(s) == ClampLong(DecValue(DigitPrefix(s)))
  {
    assert SkipSpace(s) == s;
    assert s[0] != '-' && s[0] != '+';
  }

  /** `atol` of a string made only of digits is the value of the digits, saturated. */
  lemma AtolOfDigits(s: string)
    requires AllDigits(s)
    ensures Atol(s) == ClampLong(DecValue(s))
  {
    if s != [] {
      AtolUnsigned(s);
    }
    DigitPrefixOfDigits(s, []);
    assert s + [] == s;
  }

  /** Concatenation regroups freely; long chains of appends need it stated. */
  lemma AppendAssoc<T>(a: seq<T>, b: seq<T>, c: seq<T>)
    ensures a + b + c == a + (b + c)
  {
  }

  lemma DropDrop<T>(s: seq<T>, i: nat, n: nat)
    requires i + n <= |s|
    ensures s[i..][n..] == s[i + n..]
  {
  }

  /** Lines as `std::endl` writes them: each line followed by a line feed. */
  function JoinLines(ls: seq<string>): string
  {
    if ls == [] then [] else ls[0] + "\n" + JoinLines(ls[1..])
  }

  /** The length of the first line of `s`: the position of its first line feed, or `|s|`. */
  function LineLength(s: string): (n: nat)
    ensures n <= |s| && '\n' !in s[..n]
    ensures n < |s| ==> s[n] == '\n'
  {
    if s == [] || s[0] == '\n' then 0
    else
      var n := 1 + LineLength(s[1..]);
      assert s[..n] == [s[0]] + s[1..][..n - 1];
      n
  }

  /** The lines of a text, each without its line feed. */
  function SplitLines(s: string): seq<string>
    decreases |s|
  {
    if s == [] then []
    else
      var n := LineLength(s);
      if n == |s| then [s] else [s[..n]] + SplitLines(s[n + 1..])
  }

  lemma {:induction false} JoinLinesAppend(ls: seq<string>, l: string)
    ensures JoinLines(ls + [l]) == JoinLines(ls) + l + "\n"
  {
    if ls != [] {
      assert (ls + [l])[1..] == ls[1..] + [l];
      JoinLinesAppend(ls[1..], l);
    } else {
      assert [l][1..] == [];
    }
  }

  lemma {:induction false} LineLengthOfLine(l: string, rest: string)
    requires '\n' !in l
    ensures LineLength(l + "\n" + rest) == |l|
  {
    if l != [] {
      assert (l + "\n" + rest)[1..] == l[1..] + "\n" + rest;
      LineLengthOfLine(l[1..], rest);
    }
  }

  /** Splitting joined lines that hold no line feed gives the lines back. */
  lemma {:induction false} SplitJoin(ls: seq<string>)
    requires forall i :: 0 <= i < |ls| ==> '\n' !in ls[i]
    ensures SplitLines(JoinLines(ls)) == ls
  {
    if ls != [] {
      var s := JoinLines(ls);
      assert s == ls[0] + "\n" + JoinLines(ls[1..]);
      LineLengthOfLine(ls[0], JoinLines(ls[1..]));
      assert s[..|ls[0]|] == ls[0];
      assert s[|ls[0]| + 1..] == JoinLines(ls[1..]);
      SplitJoin(ls[1..]);
    }
  }
}
