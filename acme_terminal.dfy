/**
 * The ACME operator's terminal in raw mode: `get_char` polls the keyboard and
 * returns the next byte, or the byte 0xFF when the poll times out, and
 * `read_line` collects a line on top of it.
 *
 * The keyboard is modelled by the keys it will deliver. Running out of them
 * counts as a timeout. The terminal's output is the text echoed so far.
 */
module AcmeTerminal {

  /** What `get_char` returns on a timeout: `(char)0xFF`. */
  const TimeoutChar: char := 0xFF as char

  /** What one `get_char` call sees: a byte, or a poll that timed out. */
  datatype Key = Byte(c: char) | Timeout

  /**
   * `get_char`: the byte read, or `TimeoutChar` for a timeout; a 0xFF byte
   * and a timeout give the same answer, and every other answer is the byte.
   */
  function GetChar(k: Key): (c: char)
    ensures c == TimeoutChar <==> k == Timeout || k == Byte(TimeoutChar)
    ensures c != TimeoutChar ==> k == Byte(c)
  {
    if k.Timeout? then TimeoutChar else k.c
  }

  predicate EndsLine(c: char) {
    c == '\r' || c == '\n'
  }

  /** A key at which `read_line` stops: a timeout (or a 0xFF byte) or the end of a line. */
  predicate StopsLine(k: Key) {
    GetChar(k) == TimeoutChar || EndsLine(GetChar(k))
  }

  /** The position of the first key at which `read_line` stops, or the number of keys. */
  function LineEnd(keys: seq<Key>): (n: nat)
    ensures n <= |keys|
    ensures forall j | 0 <= j < n :: !StopsLine(keys[j])
    ensures n < |keys| ==> StopsLine(keys[n])
  {
    if keys == [] || StopsLine(keys[0]) then 0 else 1 + LineEnd(keys[1..])
  }

  /** The characters `get_char` returns for the keys. */
  function Chars(keys: seq<Key>): (s: string)
    ensures |s| == |keys|
    ensures forall i | 0 <= i < |keys| :: s[i] == GetChar(keys[i])
  {
    if keys == [] then [] else [GetChar(keys[0])] + Chars(keys[1..])
  }

  /** What one `read_line` does: the line it returns, how many keys it reads, and what it echoes. */
  datatype LineRead = LineRead(line: string, consumed: nat, echoed: string)

  /**
   * `read_line`: the characters before the first carriage return or line
   * feed; a timeout first discards what was typed and gives "". With echo
   * on, every character read is echoed, the line's end included, the
   * timeout byte not.
   */
  function LineFrom(keys: seq<Key>, echo: bool): (r: LineRead)
    ensures r.consumed <= |keys|
  {
    var n := LineEnd(keys);
    if n == |keys| then LineRead([], n, if echo then Chars(keys) else [])
    else if GetChar(keys[n]) == TimeoutChar then LineRead([], n + 1, if echo then Chars(keys[..n]) else [])
    else LineRead(Chars(keys[..n]), n + 1, if echo then Chars(keys[..n]) + [GetChar(keys[n])] else [])
  }

  /**
   * The line never holds a line end or the timeout byte. A non-empty line
   * is exactly what was typed before the line end, and the line end is
   * consumed with it.
   */
  lemma ReadLineExact(keys: seq<Key>, echo: bool)
    ensures var r := LineFrom(keys, echo);
      forall c | c in r.line :: !EndsLine(c) && c != TimeoutChar
    ensures var r := LineFrom(keys, echo);
      r.line != [] ==> r.consumed == |r.line| + 1 && Chars(keys[..|r.line|]) == r.line && EndsLine(GetChar(keys[|r.line|]))
    ensures var r := LineFrom(keys, echo);
      echo && r.line != [] ==> r.echoed == r.line + [GetChar(keys[|r.line|])]
  {
  }

  /** A line typed and ended with a carriage return or line feed is read as typed. */
  lemma ReadTypedLine(s: string, end: char, rest: seq<Key>, echo: bool)
    requires forall c | c in s :: !EndsLine(c) && c != TimeoutChar
    requires EndsLine(end)
    ensures LineFrom(Typed(s) + [Byte(end)] + rest, echo).line == s
  {
    var keys := Typed(s) + [Byte(end)] + rest;
    assert forall j | 0 <= j < |s| :: keys[j] == Byte(s[j]) && s[j] in s;
    LineEndAt(keys, |s|);
    assert Chars(keys[..|s|]) == s;
  }

  /** The keys of a typed string. */
  function Typed(s: string): (keys: seq<Key>)
    ensures |keys| == |s| && forall i | 0 <= i < |s| :: keys[i] == Byte(s[i])
  {
    if s == [] then [] else [Byte(s[0])] + Typed(s[1..])
  }

  /** The first stop is at `n` when no key before it stops the line and the key at `n` does. */
  lemma {:induction false} LineEndAt(keys: seq<Key>, n: nat)
    requires n < |keys|
    requires forall j | 0 <= j < n :: !StopsLine(keys[j])
    requires StopsLine(keys[n])
    ensures LineEnd(keys) == n
  {
    if n > 0 {
      LineEndAt(keys[1..], n - 1);
    }
  }

  /** A 0xFF byte cannot be told from a timeout: it discards the line in the same way. */
  lemma ByteFFIsTimeout(before: seq<Key>, after: seq<Key>, echo: bool)
    ensures LineFrom(before + [Byte(TimeoutChar)] + after, echo) == LineFrom(before + [Timeout] + after, echo)
  {
    var a, b := before + [Byte(TimeoutChar)] + after, before + [Timeout] + after;
    assert forall j | 0 <= j < |a| :: GetChar(a[j]) == GetChar(b[j]);
    SameCharsSameLine(a, b, echo);
  }

  /** `read_line` sees keys only through `get_char`. */
  lemma SameCharsSameLine(a: seq<Key>, b: seq<Key>, echo: bool)
    requires |a| == |b|
    requires forall j | 0 <= j < |a| :: GetChar(a[j]) == GetChar(b[j])
    ensures LineFrom(a, echo) == LineFrom(b, echo)
  {
    SameCharsSameEnd(a, b);
    assert Chars(a) == Chars(b);
    var n := LineEnd(a);
    if n < |a| {
      assert Chars(a[..n]) == Chars(b[..n]);
    }
  }

  lemma {:induction false} SameCharsSameEnd(a: seq<Key>, b: seq<Key>)
    requires |a| == |b|
    requires forall j | 0 <= j < |a| :: GetChar(a[j]) == GetChar(b[j])
    ensures LineEnd(a) == LineEnd(b)
  {
    if a != [] {
      SameCharsSameEnd(a[1..], b[1..]);
    }
  }

  /** Where the keys run out or a key stops the line, `read_line` is over. */
  lemma LineFromStop(keys: seq<Key>, i: nat, echo: bool)
    requires i <= LineEnd(keys)
    requires i < |keys| ==> StopsLine(keys[i])
    ensures var r := LineFrom(keys, echo);
      i == |keys| ==> r == LineRead([], i, if echo then Chars(keys[..i]) else [])
    ensures var r := LineFrom(keys, echo);
      i < |keys| && GetChar(keys[i]) == TimeoutChar ==> r == LineRead([], i + 1, if echo then Chars(keys[..i]) else [])
    ensures var r := LineFrom(keys, echo);
      i < |keys| && EndsLine(GetChar(keys[i])) ==>
        r == LineRead(Chars(keys[..i]), i + 1, if echo then Chars(keys[..i]) + [GetChar(keys[i])] else [])
  {
    assert i == LineEnd(keys);
    if i == |keys| {
      assert keys[..i] == keys;
    }
  }

  /** Reading one more key adds its character to the characters read. */
  lemma CharsSnoc(keys: seq<Key>, i: nat)
    requires i < |keys|
    ensures Chars(keys[..i + 1]) == Chars(keys[..i]) + [GetChar(keys[i])]
  {
    assert keys[..i + 1] == keys[..i] + [keys[i]];
    var a, b := Chars(keys[..i + 1]), Chars(keys[..i]) + [GetChar(keys[i])];
    assert forall j | 0 <= j < |a| :: a[j] == b[j];
  }

  /** The operator's terminal: the keys still to come, and what has been shown. */
  class Terminal {
    var keys: seq<Key>
    var shown: string

    constructor(input: seq<Key>)
      ensures keys == input && shown == []
    {
      keys, shown := input, [];
    }

    /** `get_char`: a timeout when the keys have run out. */
    method GetKey() returns (ch: char)
      modifies this`keys
      ensures old(keys) == [] ==> ch == TimeoutChar && keys == []
      ensures old(keys) != [] ==> ch == GetChar(old(keys)[0]) && keys == old(keys)[1..]
    {
      if keys == [] {
        return TimeoutChar;
      }
      ch := GetChar(keys[0]);
      keys := keys[1..];
    }

    /** `read_line`. */
    method ReadLine(echo: bool) returns (line: string)
      modifies this
      ensures var r := LineFrom(old(keys), echo);
        line == r.line && keys == old(keys)[r.consumed..] && shown == old(shown) + r.echoed
    {
      ghost var start, shown0 := keys, shown;
      ghost var i: nat := 0;
      line := [];
      while true
        invariant i <= LineEnd(start) && keys == start[i..]
        invariant line == Chars(start[..i])
        invariant shown == shown0 + (if echo then line else [])
        decreases |keys|
      {
        if keys == [] {
          LineFromStop(start, i, echo);
          return [];
        }
        var ch := GetKey();
        assert ch == GetChar(start[i]);
        if ch == TimeoutChar {
          LineFromStop(start, i, echo);
          return [];
        }
        if echo {
          shown := shown + [ch];
        }
        if EndsLine(ch) {
          LineFromStop(start, i, echo);
          return;
        }
        assert !StopsLine(start[i]);
        CharsSnoc(start, i);
        line := line + [ch];
        i := i + 1;
      }
    }
  }
}
