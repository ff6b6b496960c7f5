/**
 * The ACME configuration file: five lines holding the operator password, the
 * demo name, the arm time in tenths of a second, and whether the Alpine (H1)
 * and Broadway (H2) arms are enabled.
 *
 * The file is read with `std::getline`, whose behaviour at the end of the file
 * matters when the file is short. The first read that finds nothing empties
 * its string and fails the stream. A read that reaches the end without a line
 * feed returns the text it got but leaves the stream at its end. Every read
 * after either leaves its string as it was.
 */
module AcmeConf {
  import opened Text

  datatype Config = Config(password: string, demoName: string, armTime: nat, h1Arms: bool, h2Arms: bool)

  /** An input file stream: the text not yet read, and whether the stream is still good. */
  datatype Stream = Stream(rest: string, good: bool)

  /**
   * `std::getline(stream, line)`: the next line without its line feed, and
   * the stream after it. A stream that is no longer good leaves `line` as it
   * was.
   */
  function Getline(s: Stream, line: string): (r: (string, Stream))
    ensures s.good && s.rest != [] ==> r.0 == s.rest[..LineLength(s.rest)]
    ensures !s.good ==> r == (line, s)
    ensures '\n' !in r.0 || r.0 == line
  {
    if !s.good then (line, s)
    else if s.rest == [] then ([], Stream([], false))
    else
      var n := LineLength(s.rest);
      if n == |s.rest| then (s.rest, Stream([], false))
      else (s.rest[..n], Stream(s.rest[n + 1..], true))
  }

  /** `c` is a letter of the C locale, either case. */
  predicate IsAlpha(c: char) { 'a' <= c <= 'z' || 'A' <= c <= 'Z' }

  /**
   * `tolower` in the C locale: the result is never an upper-case letter; it
   * is a lower-case letter exactly when `c` is a letter, the same letter of
   * the alphabet; anything else comes back unchanged.
   */
  function ToLower(c: char): (l: char)
    ensures !('A' <= l <= 'Z')
    ensures 'a' <= l <= 'z' <==> IsAlpha(c)
    ensures IsAlpha(c) ==> l as int - 'a' as int == (if c <= 'Z' then c as int - 'A' as int else c as int - 'a' as int)
    ensures !IsAlpha(c) ==> l == c
  {
    if 'A' <= c <= 'Z' then (c as int + 32) as char else c
  }

  /** Lower-casing twice is lower-casing once. */
  lemma ToLowerIdempotent(c: char)
    ensures ToLower(ToLower(c)) == ToLower(c)
  {
  }

  /** Two characters lower-case alike exactly when they are equal or are one letter in its two cases. */
  lemma ToLowerAlike(c1: char, c2: char)
    ensures ToLower(c1) == ToLower(c2) <==>
      c1 == c2 || (IsAlpha(c1) && IsAlpha(c2) && (c1 as int - c2 as int == 32 || c2 as int - c1 as int == 32))
  {
  }

  /** An arms line: true iff its first character, lower-cased, is 't' (an empty line reads as '\0'). */
  function Flag(line: string): (b: bool)
    ensures b <==> line != [] && (line[0] == 't' || line[0] == 'T')
  {
    var first := if line == [] then 0 as char else line[0];
    ToLower(first) == 't'
  }

  /** `get_config`: the five fields read from the text of the file. */
  function Parse(text: string): (c: Config)
    ensures text != [] ==> c.password == text[..LineLength(text)]
    ensures '\n' !in c.password && '\n' !in c.demoName
    ensures c.armTime < TWO_32
  {
    var (password, s1) := Getline(Stream(text, true), "");
    var (demoName, s2) := Getline(s1, "");
    var (line3, s3) := Getline(s2, "");
    var (line4, s4) := Getline(s3, line3);
    var (line5, _) := Getline(s4, line4);
    Config(password, demoName, ToU32(Atol(line3)), Flag(line4), Flag(line5))
  }

  /** The comment `set_config` writes after the arm time. */
  const ArmTimeComment: string := "\t# Sleep time in 1/0 seconds "

  function BoolText(b: bool): string {
    if b then "true" else "false"
  }

  /** The five lines `set_config` writes, without their line feeds. */
  function Lines(c: Config): seq<string> {
    [c.password, c.demoName, NatToDec(c.armTime) + ArmTimeComment, BoolText(c.h1Arms), BoolText(c.h2Arms)]
  }

  /** `set_config`: each line followed by `std::endl`. */
  function Serialise(c: Config): (t: string)
    ensures |t| > |c.password| && t[..|c.password| + 1] == c.password + "\n"
    ensures var last := BoolText(c.h2Arms) + "\n"; |t| >= |last| && t[|t| - |last|..] == last
  {
    var ls := Lines(c);
    JoinLinesTail(ls, []);
    assert JoinLines(ls) + [] == JoinLines(ls);
    JoinLines(ls)
  }

  /** A line followed by a line feed is read as that line, and the stream stays good. */
  lemma GetlineOfLine(l: string, rest: string, line: string)
    requires '\n' !in l
    ensures Getline(Stream(l + "\n" + rest, true), line) == (l, Stream(rest, true))
  {
    var t := l + "\n" + rest;
    LineLengthOfLine(l, rest);
    assert t[..|l|] == l;
    assert t[|l| + 1..] == rest;
  }

  /**
   * Whatever follows five complete lines, `get_config` reads the password,
   * the demo name, the arm time as `atol` of the third line converted to
   * `uint32_t`, and the two flags from the first characters of the last two.
   */
  lemma ParseFiveLines(ls: seq<string>, tail: string)
    requires |ls| == 5
    requires forall i | 0 <= i < 5 :: '\n' !in ls[i]
    ensures Parse(JoinLines(ls) + tail) ==
      Config(ls[0], ls[1], ToU32(Atol(ls[2])), Flag(ls[3]), Flag(ls[4]))
  {
    var t4 := ls[4] + "\n" + tail;
    var t3 := ls[3] + "\n" + t4;
    var t2 := ls[2] + "\n" + t3;
    var t1 := ls[1] + "\n" + t2;
    var t0 := ls[0] + "\n" + t1;
    JoinLinesTail(ls, tail);
    GetlineOfLine(ls[0], t1, "");
    GetlineOfLine(ls[1], t2, "");
    GetlineOfLine(ls[2], t3, "");
    GetlineOfLine(ls[3], t4, ls[2]);
    GetlineOfLine(ls[4], tail, ls[3]);
  }

  /** Five joined lines followed by more text, spelled out line by line. */
  lemma JoinLinesTail(ls: seq<string>, tail: string)
    requires |ls| == 5
    ensures JoinLines(ls) + tail ==
      ls[0] + "\n" + (ls[1] + "\n" + (ls[2] + "\n" + (ls[3] + "\n" + (ls[4] + "\n" + tail))))
  {
    assert ls[5..] == [];
    assert ls[4..][1..] == ls[5..];
    assert ls[3..][1..] == ls[4..];
    assert ls[2..][1..] == ls[3..];
    assert ls[1..][1..] == ls[2..];
    assert ls[0..] == ls;
    JoinLinesStep(ls[4..], tail);
    JoinLinesStep(ls[3..], tail);
    JoinLinesStep(ls[2..], tail);
    JoinLinesStep(ls[1..], tail);
    JoinLinesStep(ls, tail);
  }

  lemma JoinLinesStep(ls: seq<string>, tail: string)
    requires ls != []
    ensures JoinLines(ls) + tail == ls[0] + "\n" + (JoinLines(ls[1..]) + tail)
  {
  }

  /** The lines `set_config` writes hold no line feed, provided the password and demo name hold none. */
  lemma LinesOneEach(c: Config)
    requires '\n' !in c.password && '\n' !in c.demoName
    ensures forall i | 0 <= i < 5 :: '\n' !in Lines(c)[i]
  {
    DecimalHasNoLineFeed(c.armTime);
  }

  lemma DecimalHasNoLineFeed(n: nat)
    ensures '\n' !in NatToDec(n) + ArmTimeComment
  {
    assert AllDigits(NatToDec(n));
    assert forall i | 0 <= i < |NatToDec(n)| :: NatToDec(n)[i] != '\n';
  }

  /**
   * Reading back what `set_config` wrote gives the same configuration,
   * provided the password and demo name hold no line feed and the arm time
   * fits in a `long`.
   */
  lemma ParseSerialise(c: Config)
    requires '\n' !in c.password && '\n' !in c.demoName
    requires c.armTime <= LONG_MAX
    ensures Parse(Serialise(c)) == c
  {
    LinesOneEach(c);
    ParseFiveLines(Lines(c), []);
    assert JoinLines(Lines(c)) + [] == Serialise(c);
    AtolOfDecimal(c.armTime, ArmTimeComment);
  }

  /**
   * An arm time beyond `LONG_MAX` does not survive: `atol` saturates, and the
   * value read back is `LONG_MAX`.
   */
  lemma ArmTimeSaturates(c: Config)
    requires '\n' !in c.password && '\n' !in c.demoName
    requires LONG_MAX < c.armTime
    ensures Parse(Serialise(c)).armTime == LONG_MAX
  {
    LinesOneEach(c);
    ParseFiveLines(Lines(c), []);
    assert JoinLines(Lines(c)) + [] == Serialise(c);
    var d := NatToDec(c.armTime);
    assert (d + ArmTimeComment)[0] == d[0];
    AtolUnsigned(d + ArmTimeComment);
    DigitPrefixOfDigits(d, ArmTimeComment);
  }

  /** Such an arm time is what a file line of "-1" gives: `atol` reads -1, and `uint32_t` makes it 2^32 - 1. */
  lemma NegativeArmTimeWraps()
    ensures ToU32(Atol("-1")) == TWO_32 - 1 > LONG_MAX
  {
    assert SkipSpace("-1") == "-1";
    assert DigitPrefix("1") == "1" by {
      assert DigitPrefix("1"[1..]) == [];
    }
    assert DecValue("1") == 1 by {
      assert DigitVal('1') == 1;
    }
  }

  /**
   * A file cut short after four lines, the last without its line feed: the
   * fourth read hits the end of the file, so the fifth read fails and the H2
   * flag repeats the H1 line.
   */
  lemma ShortFileRepeatsFlag(l0: string, l1: string, l2: string, l3: string)
    requires '\n' !in l0 && '\n' !in l1 && '\n' !in l2 && '\n' !in l3
    ensures Parse(l0 + "\n" + (l1 + "\n" + (l2 + "\n" + l3))).h2Arms == Flag(l3)
  {
    GetlineOfLine(l0, l1 + "\n" + (l2 + "\n" + l3), "");
    GetlineOfLine(l1, l2 + "\n" + l3, "");
    GetlineOfLine(l2, l3, "");
    if l3 != [] {
      LineLengthNone(l3);
    }
  }

  /**
   * A file of four lines, each ended by a line feed as `set_config` ends
   * them: the fifth read finds nothing left, erases the line and fails, so
   * the H2 flag is false whatever the fourth line says.
   */
  lemma FourLineFileClearsFlag(l0: string, l1: string, l2: string, l3: string)
    requires '\n' !in l0 && '\n' !in l1 && '\n' !in l2 && '\n' !in l3
    ensures Parse(l0 + "\n" + (l1 + "\n" + (l2 + "\n" + (l3 + "\n")))).h2Arms == false
    ensures Parse(l0 + "\n" + (l1 + "\n" + (l2 + "\n" + (l3 + "\n")))).h1Arms == Flag(l3)
  {
    GetlineOfLine(l0, l1 + "\n" + (l2 + "\n" + (l3 + "\n")), "");
    GetlineOfLine(l1, l2 + "\n" + (l3 + "\n"), "");
    GetlineOfLine(l2, l3 + "\n", "");
    assert l3 + "\n" == l3 + "\n" + [];
    GetlineOfLine(l3, [], "");
  }

  /** A text without a line feed is one line that runs to its end. */
  lemma {:induction false} LineLengthNone(s: string)
    requires '\n' !in s
    ensures LineLength(s) == |s|
  {
    if s != [] {
      assert s[1..] == s[|s| - |s[1..]|..];
      assert forall c | c in s[1..] :: c in s;
      LineLengthNone(s[1..]);
    }
  }

  /** The configuration as the `config` object holds it, with the file it keeps in step. */
  class ConfigStore {
    var password: string
    var demoName: string
    var armTime: nat
    var h1Arms: bool
    var h2Arms: bool
    /** The text of the configuration file. */
    var file: string

    function Current(): Config
      reads this
    {
      Config(password, demoName, armTime, h1Arms, h2Arms)
    }

    /** The constructor reads the file. */
    constructor(text: string)
      ensures Current() == Parse(text) && file == text
    {
      var c := Parse(text);
      password, demoName, armTime, h1Arms, h2Arms := c.password, c.demoName, c.armTime, c.h1Arms, c.h2Arms;
      file := text;
    }

    /** `set_config`. */
    method Save()
      modifies this`file
      ensures file == Serialise(Current())
    {
      file := password + "\n" + (demoName + "\n" + (NatToDec(armTime) + ArmTimeComment + "\n"
        + (BoolText(h1Arms) + "\n" + (BoolText(h2Arms) + "\n" + []))));
      JoinLinesTail(Lines(Current()), []);
    }

    method SetArmTime(t: nat)
      requires t < TWO_32
      modifies this
      ensures Current() == old(Current()).(armTime := t)
      ensures file == Serialise(Current())
    {
      armTime := t;
      Save();
    }

    method SetDemoName(name: string)
      modifies this
      ensures Current() == old(Current()).(demoName := name)
      ensures file == Serialise(Current())
    {
      demoName := name;
      Save();
    }

    method SetH1Arms(arm: bool)
      modifies this
      ensures Current() == old(Current()).(h1Arms := arm)
      ensures file == Serialise(Current())
    {
      h1Arms := arm;
      Save();
    }

    method SetH2Arms(arm: bool)
      modifies this
      ensures Current() == old(Current()).(h2Arms := arm)
      ensures file == Serialise(Current())
    {
      h2Arms := arm;
      Save();
    }
  }
}
