/**
 * The serial line protocol of the Numato relay board.
 *
 * Every command is written followed by a carriage return.  The board echoes
 * the command, then sends a line feed and a carriage return, then (for a
 * query) a payload ended by a line feed and a carriage return, and finally
 * its `>` prompt.  The program checks the reply one byte at a time and gives
 * up at the first byte that is not the expected one.
 *
 * The board's reply is the string `input`: the bytes the board will send, in
 * order.  When `input` is exhausted the next read fails the way the half
 * second poll deadline does, with "Timeout".  The mutex that serialises the
 * exchanges is the boolean `locked`; a failed exchange never releases it.
 * `written` records the bytes written to the board.
 */
module RelayLink {
  import opened Wrappers
  import opened Text
  import opened RelayNames

  const TIMEOUT := "Timeout"
  const WRITE_ERROR := "Unable to write to device"
  const ECHO_ERROR := "Echo error"
  const ECHO_LINEFEED_ERROR := "Echo linefeed error"
  const ECHO_RETURN_ERROR := "Echo return error"
  const PROMPT_ERROR := "Prompt response error"
  const LINEFEED_RESPONSE_ERROR := "Line feed response error"
  const NO_DEVICE_ERROR := "Could not find device"
  const VERSION_ERROR := "Could not get version"

  /** The three serial device paths, in the order they are tried. */
  const Devices: seq<string> := [
    "/dev/serial/by-id/usb-Microchip_Technology_Inc._CDC_RS-232_Emulation_Demo-if00",
    "/dev/serial/by-id/usb-Numato_Systems_Pvt._Ltd._Numato_Lab_16_Channel_USB_Relay_Module-if00",
    "/dev/serial/by-id/usb-Numato_Systems_Pvt._Ltd._Numato_Lab_2_Channel_USB_Powered_Relay_Module-if00"
  ]

  /** The two firmware versions the program accepts. */
  predicate VersionAccepted(ver: string) { ver == "00000001" || ver == "00000008" }

  // ---------------------------------------------------------------------
  // Command text
  // ---------------------------------------------------------------------

  datatype Command =
    | SetRelay(relay: RelayName, state: RelayState)
    | ReadRelay(relay: RelayName)
    | ReadGpio(pin: int)
    | Reset
    | Version

  /**
   * The text of a command: relay numbers in upper-case hexadecimal without
   * `0x` or padding, GPIO numbers in decimal. No command text holds a line
   * feed or a carriage return, so its echo cannot be mistaken for the trailer.
   */
  function Render(c: Command): (t: string)
    ensures '\n' !in t && '\r' !in t
  {
    match c
    case SetRelay(r, s) =>
      var pre := "relay " + (if s == RelayOn then "on" else "off") + " ";
      NoBreakAfter(pre, NatToHex(Index(r)));
      pre + NatToHex(Index(r))
    case ReadRelay(r) =>
      NoBreakAfter("relay read ", NatToHex(Index(r)));
      "relay read " + NatToHex(Index(r))
    case ReadGpio(n) =>
      if n < 0 then
        NoBreakAfter("gpio read -", NatToDec(-n));
        assert "gpio read " + IntToDec(n) == "gpio read -" + NatToDec(-n);
        "gpio read " + IntToDec(n)
      else
        NoBreakAfter("gpio read ", NatToDec(n));
        "gpio read " + IntToDec(n)
    case Reset => "reset"
    case Version => "ver"
  }

  lemma SuffixAfterCommonPrefix(a: string, x: string, y: string)
    requires a + x == a + y
    ensures x == y
  {
    assert x == (a + x)[|a|..];
    assert y == (a + y)[|a|..];
  }

  lemma HexInjective(a: nat, b: nat)
    requires NatToHex(a) == NatToHex(b)
    ensures a == b
  {
    assert HexValue(NatToHex(a)) == a;
  }

  lemma DecInjective(a: int, b: int)
    requires IntToDec(a) == IntToDec(b)
    ensures a == b
  {
    if a < 0 && b < 0 {
      SuffixAfterCommonPrefix("-", NatToDec(-a), NatToDec(-b));
      assert DecValue(NatToDec(-a)) == -a;
    } else if a >= 0 && b >= 0 {
      assert DecValue(NatToDec(a)) == a;
    }
  }

  /** Different commands have different texts, so the board can tell them apart. */
  lemma {:induction false} RenderInjective(c1: Command, c2: Command)
    requires Render(c1) == Render(c2)
    ensures c1 == c2
  {
    match (c1, c2)
    case (SetRelay(r1, s1), SetRelay(r2, s2)) =>
      var t := Render(c1);
      assert t[7] == (if s1 == RelayOn then 'n' else 'f');
      assert t[7] == (if s2 == RelayOn then 'n' else 'f');
      var pre := "relay " + (if s1 == RelayOn then "on" else "off") + " ";
      SuffixAfterCommonPrefix(pre, NatToHex(Index(r1)), NatToHex(Index(r2)));
      HexInjective(Index(r1), Index(r2));
    case (ReadRelay(r1), ReadRelay(r2)) =>
      SuffixAfterCommonPrefix("relay read ", NatToHex(Index(r1)), NatToHex(Index(r2)));
      HexInjective(Index(r1), Index(r2));
    case (ReadGpio(n1), ReadGpio(n2)) =>
      SuffixAfterCommonPrefix("gpio read ", IntToDec(n1), IntToDec(n2));
      DecInjective(n1, n2);
    case _ =>
      RenderShape(c1);
      RenderShape(c2);
  }

  /** The bytes that tell the five kinds of command apart. */
  lemma RenderShape(c: Command)
    ensures var t := Render(c);
      match c
      case SetRelay(_, _) => |t| > 8 && t[0] == 'r' && t[2] == 'l' && t[6] == 'o'
      case ReadRelay(_) => |t| > 11 && t[0] == 'r' && t[2] == 'l' && t[6] == 'r'
      case ReadGpio(_) => |t| > 10 && t[0] == 'g'
      case Reset => t == "reset"
      case Version => t == "ver"
  {
  }

  /** A fixed text without line breaks followed by digits (decimal or upper-case hexadecimal) holds no line break. */
  lemma NoBreakAfter(prefix: string, digits: string)
    requires '\n' !in prefix && '\r' !in prefix
    requires forall i :: 0 <= i < |digits| ==> IsUpperHexDigit(digits[i])
    ensures '\n' !in prefix + digits && '\r' !in prefix + digits
  {
  }

  // ---------------------------------------------------------------------
  // The exchange, as functions of the port state
  // ---------------------------------------------------------------------

  /** The state of the serial link: the board's pending reply, the bytes written so far, and the mutex. */
  datatype Port = Port(input: string, written: string, locked: bool)

  /** `q` is `p` after reading some bytes from the board and nothing else. */
  predicate ReadOnly(p: Port, q: Port)
  {
    q == p.(input := q.input) && |q.input| <= |p.input| && q.input == p.input[|p.input| - |q.input|..]
  }

  /**
   * One byte from the board, or "Timeout" when there is none: a byte is read
   * exactly when the board has one pending, and it is the first of them.
   */
  function ReadByte(p: Port): (r: (Result<char, RelayError>, Port))
    ensures r.1.written == p.written && r.1.locked == p.locked
    ensures r.0.Success? <==> p.input != []
    ensures r.0.Success? ==> p.input == [r.0.value] + r.1.input
    ensures r.0.Failure? ==> r.0.error == RelayError(TIMEOUT) && r.1 == p
  {
    if p.input == [] then (Failure(RelayError(TIMEOUT)), p)
    else (Success(p.input[0]), p.(input := p.input[1..]))
  }

  /** Read one byte that must be `c`; any other byte fails with `msg`. */
  function Expect(c: char, msg: string, p: Port): (Outcome<RelayError>, Port)
  {
    var (b, q) := ReadByte(p);
    if b.Failure? then (Fail(b.error), q)
    else if b.value != c then (Fail(RelayError(msg)), q)
    else (Pass, q)
  }

  /** The echo check from position `i` of the command on: the rest of the command, then `\n`, then `\r`. */
  function EchoFrom(cmd: string, i: nat, p: Port): (r: (Outcome<RelayError>, Port))
    requires i <= |cmd|
    ensures r.1.written == p.written && r.1.locked == p.locked
    ensures r.0.Fail? ==> r.0.error.message in {TIMEOUT, ECHO_ERROR, ECHO_LINEFEED_ERROR, ECHO_RETURN_ERROR}
    decreases |cmd| - i
  {
    if i < |cmd| then
      var (e, q) := Expect(cmd[i], ECHO_ERROR, p);
      if e.Fail? then (e, q) else EchoFrom(cmd, i + 1, q)
    else
      var (lf, q) := Expect('\n', ECHO_LINEFEED_ERROR, p);
      if lf.Fail? then (lf, q) else Expect('\r', ECHO_RETURN_ERROR, q)
  }

  /** Sending a command: a write that fails short reads nothing; otherwise the echo check. */
  function Send(cmd: string, writable: bool, p: Port): (Outcome<RelayError>, Port)
  {
    if !writable then (Fail(RelayError(WRITE_ERROR)), p)
    else EchoFrom(cmd, 0, p.(written := p.written + cmd + "\r"))
  }

  /**
   * A command without payload: lock, send, expect the prompt, unlock. The
   * command and its carriage return are written exactly when the device takes
   * the write; a failure is one of the protocol's messages.
   */
  function Exchange(cmd: string, writable: bool, p: Port): (r: (Outcome<RelayError>, Port))
    ensures r.1.written == p.written + (if writable then cmd + "\r" else [])
    ensures r.0.Fail? ==>
      r.0.error.message in {WRITE_ERROR, TIMEOUT, ECHO_ERROR, ECHO_LINEFEED_ERROR, ECHO_RETURN_ERROR, PROMPT_ERROR}
  {
    var (s, q) := Send(cmd, writable, p.(locked := true));
    if s.Fail? then (s, q)
    else
      var (pr, q2) := Expect('>', PROMPT_ERROR, q);
      if pr.Fail? then (pr, q2) else (Pass, q2.(locked := false))
  }

  /**
   * The payload loop: bytes up to the first `\n` are the payload (`acc` holds
   * those read so far); that `\n` must be followed by `\r` and `>`, and then
   * the lock is released.
   */
  function PayloadFrom(acc: string, p: Port): (r: (Result<string, RelayError>, Port))
    ensures r.1.written == p.written
    ensures r.0.Failure? ==> r.0.error.message in {TIMEOUT, LINEFEED_RESPONSE_ERROR, PROMPT_ERROR}
    decreases |p.input|
  {
    if p.input == [] then (Failure(RelayError(TIMEOUT)), p)
    else
      var ch := p.input[0];
      var q := p.(input := p.input[1..]);
      if ch == '\n' then
        var (lf, q1) := Expect('\r', LINEFEED_RESPONSE_ERROR, q);
        if lf.Fail? then (Failure(lf.error), q1)
        else
          var (pr, q2) := Expect('>', PROMPT_ERROR, q1);
          if pr.Fail? then (Failure(pr.error), q2) else (Success(acc), q2.(locked := false))
      else PayloadFrom(acc + [ch], q)
  }

  /**
   * A command with a payload: lock, send, read the payload. The command and
   * its carriage return are written exactly when the device takes the write;
   * a failure is one of the protocol's messages.
   */
  function Query(cmd: string, writable: bool, p: Port): (r: (Result<string, RelayError>, Port))
    ensures r.1.written == p.written + (if writable then cmd + "\r" else [])
    ensures r.0.Failure? ==>
      r.0.error.message in {WRITE_ERROR, TIMEOUT, ECHO_ERROR, ECHO_LINEFEED_ERROR, ECHO_RETURN_ERROR, LINEFEED_RESPONSE_ERROR, PROMPT_ERROR}
  {
    var (s, q) := Send(cmd, writable, p.(locked := true));
    if s.Fail? then (Failure(s.error), q) else PayloadFrom("", q)
  }

  /** The GPIO reads of a board reset, from pin `i` up to pin 9; the values read are discarded. */
  function GpioSweep(i: nat, writable: bool, p: Port): (r: (Outcome<RelayError>, Port))
    requires i <= 10
    ensures p.written <= r.1.written
    ensures !writable && i < 10 ==> r == (Fail(RelayError(WRITE_ERROR)), p.(locked := true))
    decreases 10 - i
  {
    if i == 10 then (Pass, p)
    else
      var (g, q) := Query(Render(ReadGpio(i)), writable, p);
      if g.Failure? then (Fail(g.error), q) else GpioSweep(i + 1, writable, q)
  }

  /** A board reset: the `reset` command, then a read of GPIO 0..9, which makes every pin an input. */
  function ResetExchange(writable: bool, p: Port): (r: (Outcome<RelayError>, Port))
    ensures !writable ==> r == (Fail(RelayError(WRITE_ERROR)), p.(locked := true))
    ensures writable ==> p.written + "reset\r" <= r.1.written
  {
    var (a, q) := Exchange(Render(Reset), writable, p);
    if a.Fail? then (a, q) else GpioSweep(0, writable, q)
  }

  /** The first device of the list that can be read, or "Could not find device". */
  function FindDevice(accessible: set<string>): (r: Result<string, RelayError>)
    ensures r.Success? <==> exists i :: 0 <= i < |Devices| && Devices[i] in accessible
    ensures r.Success? ==>
      exists i :: 0 <= i < |Devices| && Devices[i] == r.value && r.value in accessible &&
        forall j :: 0 <= j < i ==> Devices[j] !in accessible
    ensures r.Failure? ==> r.error == RelayError(NO_DEVICE_ERROR)
  {
    if Devices[0] in accessible then Success(Devices[0])
    else if Devices[1] in accessible then Success(Devices[1])
    else if Devices[2] in accessible then Success(Devices[2])
    else Failure(RelayError(NO_DEVICE_ERROR))
  }

  // ---------------------------------------------------------------------
  // What the exchange accepts and rejects
  // ---------------------------------------------------------------------

  lemma {:induction false} EchoReadsOnly(cmd: string, i: nat, p: Port)
    requires i <= |cmd|
    ensures ReadOnly(p, EchoFrom(cmd, i, p).1)
    decreases |cmd| - i
  {
    if i < |cmd| {
      var (e, q) := Expect(cmd[i], ECHO_ERROR, p);
      assert ReadOnly(p, q);
      if e.Pass? {
        EchoReadsOnly(cmd, i + 1, q);
        ReadOnlyTrans(p, q, EchoFrom(cmd, i + 1, q).1);
      }
    } else {
      var (lf, q) := Expect('\n', ECHO_LINEFEED_ERROR, p);
      assert ReadOnly(p, q);
      if lf.Pass? {
        var (rt, q2) := Expect('\r', ECHO_RETURN_ERROR, q);
        assert ReadOnly(q, q2);
        ReadOnlyTrans(p, q, q2);
      }
    }
  }

  lemma ReadOnlyTrans(p: Port, q: Port, r: Port)
    requires ReadOnly(p, q) && ReadOnly(q, r)
    ensures ReadOnly(p, r)
  {
    DropDrop(p.input, |p.input| - |q.input|, |q.input| - |r.input|);
  }

  /** An exact echo is accepted and consumed. */
  lemma {:induction false} EchoMatches(cmd: string, i: nat, p: Port, rest: string)
    requires i <= |cmd|
    requires p.input == cmd[i..] + "\n\r" + rest
    ensures EchoFrom(cmd, i, p) == (Pass, p.(input := rest))
    decreases |cmd| - i
  {
    if i < |cmd| {
      assert p.input[0] == cmd[i];
      assert cmd[i..] == [cmd[i]] + cmd[i + 1..];
      assert p.input[1..] == cmd[i + 1..] + "\n\r" + rest;
      EchoMatches(cmd, i + 1, p.(input := p.input[1..]), rest);
    } else {
      assert p.input == "\n\r" + rest;
      assert p.input[2..] == rest;
    }
  }

  /** Only an exact echo is accepted. */
  lemma {:induction false} EchoPassed(cmd: string, i: nat, p: Port)
    requires i <= |cmd|
    requires EchoFrom(cmd, i, p).0.Pass?
    ensures |p.input| >= |cmd| - i + 2
    ensures p.input[..|cmd| - i + 2] == cmd[i..] + "\n\r"
    ensures EchoFrom(cmd, i, p).1 == p.(input := p.input[|cmd| - i + 2..])
    decreases |cmd| - i
  {
    if i < |cmd| {
      var q := p.(input := p.input[1..]);
      EchoPassed(cmd, i + 1, q);
      assert cmd[i..] == [cmd[i]] + cmd[i + 1..];
      assert p.input[..|cmd| - i + 2] == [p.input[0]] + q.input[..|cmd| - (i + 1) + 2];
      assert q.input[|cmd| - (i + 1) + 2..] == p.input[|cmd| - i + 2..];
    } else {
      assert p.input[..2] == [p.input[0], p.input[1]];
      assert p.input[1..][1..] == p.input[2..];
    }
  }

  /** The first byte of the reply that differs from echo + `\n\r` decides the message. */
  lemma {:induction false} EchoMismatch(cmd: string, i: nat, p: Port, k: nat)
    requires i <= |cmd|
    requires k < |cmd| - i + 2 && k < |p.input|
    requires p.input[..k] == (cmd[i..] + "\n\r")[..k]
    requires p.input[k] != (cmd[i..] + "\n\r")[k]
    ensures EchoFrom(cmd, i, p).0 ==
      Fail(RelayError(if i + k < |cmd| then ECHO_ERROR
                      else if i + k == |cmd| then ECHO_LINEFEED_ERROR
                      else ECHO_RETURN_ERROR))
    decreases k
  {
    var expected := cmd[i..] + "\n\r";
    if k == 0 {
      if i == |cmd| {
        assert expected[0] == '\n';
      } else {
        assert expected[0] == cmd[i];
      }
    } else {
      assert p.input[0] == expected[0];
      var q := p.(input := p.input[1..]);
      if i < |cmd| {
        assert expected[0] == cmd[i];
        assert expected[1..] == cmd[i + 1..] + "\n\r";
        assert q.input[..k - 1] == p.input[1..k];
        EchoMismatch(cmd, i + 1, q, k - 1);
      } else {
        assert expected == "\n\r";
        assert k == 1 && p.input[1] != '\r';
      }
    }
  }

  /** A reply that stops early, before echo + `\n\r` is complete, fails with "Timeout". */
  lemma {:induction false} EchoTimeout(cmd: string, i: nat, p: Port)
    requires i <= |cmd|
    requires |p.input| < |cmd| - i + 2
    requires p.input == (cmd[i..] + "\n\r")[..|p.input|]
    ensures EchoFrom(cmd, i, p).0 == Fail(RelayError(TIMEOUT))
    decreases |cmd| - i
  {
    var expected := cmd[i..] + "\n\r";
    if p.input != [] {
      assert p.input[0] == expected[0];
      var q := p.(input := p.input[1..]);
      if i < |cmd| {
        assert expected[0] == cmd[i];
        assert expected[1..] == cmd[i + 1..] + "\n\r";
        assert q.input == (cmd[i + 1..] + "\n\r")[..|q.input|];
        EchoTimeout(cmd, i + 1, q);
      } else {
        assert expected == "\n\r";
        assert q.input == [];
      }
    }
  }

  /**
   * A command without payload succeeds exactly when the device takes the
   * write and the reply begins with the echo, `\n`, `\r` and `>`; it then
   * consumes exactly those bytes and leaves the lock free.
   */
  lemma ExchangeSucceedsIff(cmd: string, writable: bool, p: Port)
    ensures Exchange(cmd, writable, p).0.Pass? <==>
      writable && |p.input| >= |cmd| + 3 && p.input[..|cmd| + 3] == cmd + "\n\r>"
    ensures Exchange(cmd, writable, p).0.Pass? ==>
      Exchange(cmd, writable, p).1 == Port(p.input[|cmd| + 3..], p.written + cmd + "\r", false)
  {
    var p1 := p.(locked := true, written := p.written + cmd + "\r");
    if writable && |p.input| >= |cmd| + 3 && p.input[..|cmd| + 3] == cmd + "\n\r>" {
      var rest := p.input[|cmd| + 3..];
      assert p.input == cmd + "\n\r" + ([p.input[|cmd| + 2]] + rest);
      assert cmd[0..] == cmd;
      EchoMatches(cmd, 0, p1, [p.input[|cmd| + 2]] + rest);
    }
    if Exchange(cmd, writable, p).0.Pass? {
      assert writable;
      EchoPassed(cmd, 0, p1);
      assert cmd[0..] == cmd;
      var q := p1.(input := p.input[|cmd| + 2..]);
      assert q.input[0] == '>';
      assert p.input[..|cmd| + 3] == p.input[..|cmd| + 2] + [q.input[0]];
      assert q.input[1..] == p.input[|cmd| + 3..];
    }
  }

  /**
   * A failed command leaves the lock held; a failed write reads nothing; and
   * the first wrong byte of the reply names the failure: inside the echo
   * "Echo error", then "Echo linefeed error", "Echo return error", and
   * "Prompt response error" for the byte after them.
   */
  lemma ExchangeFailures(cmd: string, writable: bool, p: Port)
    ensures Exchange(cmd, writable, p).0.Fail? ==> Exchange(cmd, writable, p).1.locked
    ensures !writable ==> Exchange(cmd, writable, p) == (Fail(RelayError(WRITE_ERROR)), p.(locked := true))
    ensures forall k :: 0 <= k < |cmd| + 3 && k < |p.input| && p.input[..k] == (cmd + "\n\r>")[..k] && p.input[k] != (cmd + "\n\r>")[k] ==>
      Exchange(cmd, true, p).0 ==
        Fail(RelayError(if k < |cmd| then ECHO_ERROR
                        else if k == |cmd| then ECHO_LINEFEED_ERROR
                        else if k == |cmd| + 1 then ECHO_RETURN_ERROR
                        else PROMPT_ERROR))
    ensures |p.input| < |cmd| + 3 && p.input == (cmd + "\n\r>")[..|p.input|] ==>
      Exchange(cmd, true, p).0 == Fail(RelayError(TIMEOUT))
  {
    var p1 := p.(locked := true, written := p.written + cmd + "\r");
    assert cmd[0..] == cmd;
    if writable {
      EchoReadsOnly(cmd, 0, p1);
    }
    forall k | 0 <= k < |cmd| + 3 && k < |p.input| && p.input[..k] == (cmd + "\n\r>")[..k] && p.input[k] != (cmd + "\n\r>")[k]
      ensures Exchange(cmd, true, p).0 ==
        Fail(RelayError(if k < |cmd| then ECHO_ERROR
                        else if k == |cmd| then ECHO_LINEFEED_ERROR
                        else if k == |cmd| + 1 then ECHO_RETURN_ERROR
                        else PROMPT_ERROR))
    {
      if k < |cmd| + 2 {
        assert (cmd + "\n\r>")[..k] == (cmd + "\n\r")[..k];
        EchoMismatch(cmd, 0, p1, k);
      } else {
        assert p.input[..k] == cmd + "\n\r";
        assert p.input == cmd + "\n\r" + p.input[k..];
        EchoMatches(cmd, 0, p1, p.input[k..]);
      }
    }
    if |p.input| < |cmd| + 3 && p.input == (cmd + "\n\r>")[..|p.input|] {
      if |p.input| < |cmd| + 2 {
        assert p.input == (cmd + "\n\r")[..|p.input|];
        EchoTimeout(cmd, 0, p1);
      } else {
        assert p.input == cmd + "\n\r" + [];
        EchoMatches(cmd, 0, p1, []);
      }
    }
  }

  lemma {:induction false} PayloadFailureKeepsLock(acc: string, p: Port)
    ensures PayloadFrom(acc, p).0.Failure? ==> PayloadFrom(acc, p).1.locked == p.locked
    decreases |p.input|
  {
    if p.input != [] && p.input[0] != '\n' {
      PayloadFailureKeepsLock(acc + [p.input[0]], p.(input := p.input[1..]));
    }
  }

  /** A payload without line feed, followed by `\n\r>`, is returned whole, and the lock is released. */
  lemma {:induction false} PayloadMatches(acc: string, p: Port, payload: string, rest: string)
    requires '\n' !in payload
    requires p.input == payload + "\n\r>" + rest
    ensures PayloadFrom(acc, p) == (Success(acc + payload), p.(input := rest, locked := false))
    decreases |payload|
  {
    if payload == [] {
      assert p.input == "\n\r>" + rest;
      assert p.input[0] == '\n' && p.input[1..][0] == '\r' && p.input[1..][1..][0] == '>';
      assert p.input[1..][1..][1..] == rest;
      assert acc + payload == acc;
    } else {
      assert p.input[0] == payload[0];
      assert p.input[1..] == payload[1..] + "\n\r>" + rest;
      assert acc + [payload[0]] + payload[1..] == acc + payload;
      PayloadMatches(acc + [payload[0]], p.(input := p.input[1..]), payload[1..], rest);
    }
  }

  /** Only such a reply is accepted: the payload is everything before the first line feed. */
  lemma {:induction false} PayloadPassed(acc: string, p: Port)
    requires PayloadFrom(acc, p).0.Success?
    ensures var v := PayloadFrom(acc, p).0.value;
      |acc| <= |v| && v[..|acc|] == acc && '\n' !in v[|acc|..] &&
      p.input == v[|acc|..] + "\n\r>" + PayloadFrom(acc, p).1.input &&
      PayloadFrom(acc, p).1 == p.(input := PayloadFrom(acc, p).1.input, locked := false)
    decreases |p.input|
  {
    var ch := p.input[0];
    var q := p.(input := p.input[1..]);
    if ch == '\n' {
      assert p.input == "\n\r>" + p.input[3..];
      assert PayloadFrom(acc, p).0.value == acc;
    } else {
      PayloadPassed(acc + [ch], q);
      var v := PayloadFrom(acc, p).0.value;
      assert v == PayloadFrom(acc + [ch], q).0.value;
      assert v[..|acc|] == (v[..|acc| + 1])[..|acc|];
      assert v[|acc|..] == [ch] + v[|acc| + 1..];
    }
  }

  /**
   * After the payload's line feed, a byte other than `\r` fails with "Line
   * feed response error" and then a byte other than `>` with "Prompt response
   * error"; a reply with no line feed at all runs out with "Timeout".
   */
  lemma {:induction false} PayloadFailures(acc: string, p: Port, payload: string, c: char, tail: string)
    requires '\n' !in payload
    ensures c != '\r' && p.input == payload + "\n" + [c] + tail ==>
      PayloadFrom(acc, p).0 == Failure(RelayError(LINEFEED_RESPONSE_ERROR))
    ensures c != '>' && p.input == payload + "\n\r" + [c] + tail ==>
      PayloadFrom(acc, p).0 == Failure(RelayError(PROMPT_ERROR))
    ensures p.input == payload ==> PayloadFrom(acc, p).0 == Failure(RelayError(TIMEOUT))
    decreases |payload|
  {
    if payload != [] && p.input != [] {
      var q := p.(input := p.input[1..]);
      if p.input == payload + "\n" + [c] + tail {
        assert p.input[0] == payload[0];
        assert q.input == payload[1..] + "\n" + [c] + tail;
      }
      if p.input == payload + "\n\r" + [c] + tail {
        assert p.input[0] == payload[0];
        assert q.input == payload[1..] + "\n\r" + [c] + tail;
      }
      if p.input == payload {
        assert q.input == payload[1..];
      }
      PayloadFailures(acc + [payload[0]], q, payload[1..], c, tail);
    } else if payload == [] {
      if p.input == payload + "\n" + [c] + tail {
        assert p.input[1..][0] == c;
      }
      if p.input == payload + "\n\r" + [c] + tail {
        assert p.input[1..][1..][0] == c;
      }
    }
  }

  /**
   * A reply made of the echo, `\n\r`, a payload free of line feeds and
   * `\n\r>` makes the query return that payload, consume exactly those
   * bytes and free the lock.
   */
  lemma QueryAccepts(cmd: string, p: Port, payload: string, rest: string)
    requires '\n' !in payload
    requires p.input == cmd + "\n\r" + payload + "\n\r>" + rest
    ensures Query(cmd, true, p) == (Success(payload), Port(rest, p.written + cmd + "\r", false))
  {
    var p1 := p.(locked := true, written := p.written + cmd + "\r");
    assert cmd[0..] == cmd;
    assert p.input == cmd + "\n\r" + (payload + "\n\r>" + rest);
    EchoMatches(cmd, 0, p1, payload + "\n\r>" + rest);
    PayloadMatches("", p1.(input := payload + "\n\r>" + rest), payload, rest);
    assert "" + payload == payload;
  }

  /** Only such a reply makes a query succeed, and its payload is what the query returns. */
  lemma QueryPassed(cmd: string, writable: bool, p: Port)
    requires Query(cmd, writable, p).0.Success?
    ensures var (v, q) := Query(cmd, writable, p);
      writable && '\n' !in v.value &&
      p.input == cmd + "\n\r" + v.value + "\n\r>" + q.input &&
      q == Port(q.input, p.written + cmd + "\r", false)
  {
    var p1 := p.(locked := true, written := p.written + cmd + "\r");
    assert writable;
    assert cmd[0..] == cmd;
    EchoPassed(cmd, 0, p1);
    var q := p1.(input := p.input[|cmd| + 2..]);
    PayloadPassed("", q);
    var v := PayloadFrom("", q).0.value;
    assert v[0..] == v;
    assert p.input == p.input[..|cmd| + 2] + q.input;
  }

  /** A failed query leaves the lock held, and a failed write reads nothing. */
  lemma QueryFailures(cmd: string, writable: bool, p: Port)
    ensures Query(cmd, writable, p).0.Failure? ==> Query(cmd, writable, p).1.locked
    ensures !writable ==> Query(cmd, writable, p) == (Failure(RelayError(WRITE_ERROR)), p.(locked := true))
  {
    var p1 := p.(locked := true, written := p.written + cmd + "\r");
    if writable {
      EchoReadsOnly(cmd, 0, p1);
      var (s, q) := EchoFrom(cmd, 0, p1);
      if s.Pass? {
        PayloadFailureKeepsLock("", q);
      }
    }
  }

  /** A reset succeeds only if all eleven exchanges do, and a failed one leaves the lock held. */
  lemma {:induction false} GpioSweepFailureKeepsLock(i: nat, writable: bool, p: Port)
    requires i <= 10
    ensures GpioSweep(i, writable, p).0.Fail? ==> GpioSweep(i, writable, p).1.locked
    ensures GpioSweep(i, writable, p).0.Pass? && i < 10 ==> !GpioSweep(i, writable, p).1.locked
    decreases 10 - i
  {
    if i < 10 {
      var (g, q) := Query(Render(ReadGpio(i)), writable, p);
      QueryFailures(Render(ReadGpio(i)), writable, p);
      if g.Success? {
        QuerySuccessUnlocks(Render(ReadGpio(i)), writable, p);
        GpioSweepFailureKeepsLock(i + 1, writable, q);
      }
    }
  }

  lemma QuerySuccessUnlocks(cmd: string, writable: bool, p: Port)
    ensures Query(cmd, writable, p).0.Success? ==> !Query(cmd, writable, p).1.locked
  {
    if Query(cmd, writable, p).0.Success? {
      QueryPassed(cmd, writable, p);
    }
  }

  lemma ResetFailureKeepsLock(writable: bool, p: Port)
    ensures ResetExchange(writable, p).0.Fail? ==> ResetExchange(writable, p).1.locked
  {
    ExchangeFailures(Render(Reset), writable, p);
    var (a, q) := Exchange(Render(Reset), writable, p);
    if a.Pass? {
      GpioSweepFailureKeepsLock(0, writable, q);
    }
  }

  /** The commands a sweep from pin `i` writes: "gpio read i", "gpio read i+1", ... up to pin 9, each ended by `\r`. */
  function SweepWrites(i: nat): string
    requires i <= 10
    decreases 10 - i
  {
    if i == 10 then [] else Render(ReadGpio(i)) + "\r" + SweepWrites(i + 1)
  }

  /** A sweep that succeeds has written one GPIO read per pin from `i` up to 9, in pin order, and left the lock free. */
  lemma {:induction false} GpioSweepWrites(i: nat, writable: bool, p: Port)
    requires i <= 10
    requires GpioSweep(i, writable, p).0.Pass?
    ensures GpioSweep(i, writable, p).1.written == p.written + SweepWrites(i)
    ensures i < 10 ==> writable && !GpioSweep(i, writable, p).1.locked
    decreases 10 - i
  {
    if i < 10 {
      var cmd := Render(ReadGpio(i));
      var (g, q) := Query(cmd, writable, p);
      QueryPassed(cmd, writable, p);
      GpioSweepWrites(i + 1, writable, q);
      if i + 1 == 10 {
        assert GpioSweep(i, writable, p).1 == q;
      }
      assert p.written + cmd + "\r" + SweepWrites(i + 1) == p.written + (cmd + "\r" + SweepWrites(i + 1));
    }
  }

  /** A successful reset has written "reset\r", then "gpio read 0\r" up to "gpio read 9\r", and left the lock free. */
  lemma ResetWrites(writable: bool, p: Port)
    requires ResetExchange(writable, p).0.Pass?
    ensures ResetExchange(writable, p).1.written == p.written + "reset\r" + SweepWrites(0)
    ensures writable && !ResetExchange(writable, p).1.locked
  {
    var (a, q) := Exchange(Render(Reset), writable, p);
    ExchangeSucceedsIff(Render(Reset), writable, p);
    assert q.written == p.written + "reset\r";
    assert ResetExchange(writable, p) == GpioSweep(0, writable, q);
    GpioSweepWrites(0, writable, q);
  }

  /** The sweep of a reset reads pin `i` with the command "gpio read" and the pin's one digit. */
  lemma GpioReadText(i: nat)
    requires i < 10
    ensures Render(ReadGpio(i)) == "gpio read " + [('0' as int + i) as char]
  {
    assert IntToDec(i) == NatToDec(i) == [DigitChar(i)];
  }

  // ---------------------------------------------------------------------
  // The link itself
  // ---------------------------------------------------------------------

  class Link {
    /** Bytes the board will still send. */
    var input: string
    /** Bytes written to the board. */
    var written: string
    /** Whether the relay mutex is held. */
    var locked: bool
    /** What simulate mode prints on standard output. */
    var console: string
    /** The serial device that was opened. */
    var device: string
    /** Simulate mode: no board; writes are printed and reads return canned values. */
    const simulate: bool
    /** Whether the device accepts a whole write. */
    const writable: bool

    function State(): Port
      reads this
    {
      Port(input, written, locked)
    }

    constructor(simulate: bool, writable: bool, reply: string)
      ensures this.simulate == simulate && this.writable == writable
      ensures State() == Port(reply, "", false) && console == "" && device == ""
    {
      this.simulate := simulate;
      this.writable := writable;
      input := reply;
      written := "";
      locked := false;
      console := "";
      device := "";
    }

    /** One byte from the board. */
    method ReadCh() returns (r: Result<char, RelayError>)
      modifies this
      ensures (r, State()) == ReadByte(old(State()))
      ensures console == old(console) && device == old(device)
    {
      if input == [] {
        return Failure(RelayError(TIMEOUT));
      }
      r := Success(input[0]);
      input := input[1..];
    }

    /** Write the command and a carriage return, then check the echo byte by byte. */
    method RawRelaySend(cmd: string) returns (r: Outcome<RelayError>)
      modifies this
      ensures (r, State()) == Send(cmd, writable, old(State()))
      ensures console == old(console) && device == old(device)
    {
      if !writable {
        return Fail(RelayError(WRITE_ERROR));
      }
      written := written + cmd + "\r";
      var i := 0;
      while i < |cmd|
        invariant 0 <= i <= |cmd|
        invariant EchoFrom(cmd, i, State()) == Send(cmd, writable, old(State()))
        invariant console == old(console) && device == old(device)
      {
        var ch := ReadCh();
        if ch.Failure? {
          return Fail(ch.error);
        }
        if ch.value != cmd[i] {
          return Fail(RelayError(ECHO_ERROR));
        }
        i := i + 1;
      }
      var ch := ReadCh();
      if ch.Failure? {
        return Fail(ch.error);
      }
      if ch.value != '\n' {
        return Fail(RelayError(ECHO_LINEFEED_ERROR));
      }
      ch := ReadCh();
      if ch.Failure? {
        return Fail(ch.error);
      }
      if ch.value != '\r' {
        return Fail(RelayError(ECHO_RETURN_ERROR));
      }
      r := Pass;
    }

    /** A command answered by the prompt alone; in simulate mode it is only printed. */
    method RawRelay(cmd: string) returns (r: Outcome<RelayError>)
      requires !locked
      modifies this
      ensures simulate ==> r == Pass && State() == old(State()) && console == old(console) + "RAW RELAY: " + cmd + "\n"
      ensures !simulate ==> (r, State()) == Exchange(cmd, writable, old(State())) && console == old(console)
      ensures device == old(device)
    {
      if simulate {
        console := console + "RAW RELAY: " + cmd + "\n";
        return Pass;
      }
      locked := true;
      r := RawRelaySend(cmd);
      if r.Fail? {
        return;
      }
      var ch := ReadCh();
      if ch.Failure? {
        return Fail(ch.error);
      }
      if ch.value != '>' {
        return Fail(RelayError(PROMPT_ERROR));
      }
      locked := false;
    }

    /** A command answered by a one-line payload, returned without its line end. */
    method RawRelayResponse(cmd: string) returns (r: Result<string, RelayError>)
      requires !locked
      modifies this
      ensures (r, State()) == Query(cmd, writable, old(State()))
      ensures console == old(console) && device == old(device)
    {
      locked := true;
      var sent := RawRelaySend(cmd);
      if sent.Fail? {
        return Failure(sent.error);
      }
      var result := "";
      while true
        invariant PayloadFrom(result, State()) == Query(cmd, writable, old(State()))
        invariant console == old(console) && device == old(device)
        decreases |input|
      {
        var ch := ReadCh();
        if ch.Failure? {
          return Failure(ch.error);
        }
        if ch.value == '\n' {
          ch := ReadCh();
          if ch.Failure? {
            return Failure(ch.error);
          }
          if ch.value != '\r' {
            return Failure(RelayError(LINEFEED_RESPONSE_ERROR));
          }
          ch := ReadCh();
          if ch.Failure? {
            return Failure(ch.error);
          }
          if ch.value != '>' {
            return Failure(RelayError(PROMPT_ERROR));
          }
          locked := false;
          return Success(result);
        }
        result := result + [ch.value];
      }
    }

    /** Switch one relay; simulate mode does nothing. */
    method Relay(name: RelayName, state: RelayState) returns (r: Outcome<RelayError>)
      requires !locked
      modifies this
      ensures simulate ==> r == Pass && State() == old(State()) && console == old(console)
      ensures !simulate ==> (r, State()) == Exchange(Render(SetRelay(name, state)), writable, old(State())) && console == old(console)
      ensures device == old(device)
    {
      if simulate {
        return Pass;
      }
      r := RawRelay(Render(SetRelay(name, state)));
    }

    /** The board's reading of one relay; "0" in simulate mode. */
    method RelayStatus(name: RelayName) returns (r: Result<string, RelayError>)
      requires !locked
      modifies this
      ensures simulate ==> r == Success("0") && State() == old(State())
      ensures !simulate ==> (r, State()) == Query(Render(ReadRelay(name)), writable, old(State()))
      ensures console == old(console) && device == old(device)
    {
      if simulate {
        return Success("0");
      }
      r := RawRelayResponse(Render(ReadRelay(name)));
    }

    /** The board's reading of one GPIO pin; "1" in simulate mode. */
    method GpioStatus(pin: int) returns (r: Result<string, RelayError>)
      requires !locked
      modifies this
      ensures simulate ==> r == Success("1") && State() == old(State())
      ensures !simulate ==> (r, State()) == Query(Render(ReadGpio(pin)), writable, old(State()))
      ensures console == old(console) && device == old(device)
    {
      if simulate {
        return Success("1");
      }
      r := RawRelayResponse(Render(ReadGpio(pin)));
    }

    /** Reset the board (all relays off), then read GPIO 0..9 so that every pin is an input. */
    method RelayReset() returns (r: Outcome<RelayError>)
      requires !locked
      modifies this
      ensures simulate ==> r == Pass && State() == old(State()) && console == old(console) + "RAW RELAY: reset\n"
      ensures !simulate ==> (r, State()) == ResetExchange(writable, old(State())) && console == old(console)
      ensures device == old(device)
    {
      r := RawRelay(Render(Reset));
      if r.Fail? {
        return;
      }
      for i := 0 to 10
        invariant !locked
        invariant simulate ==> State() == old(State()) && console == old(console) + "RAW RELAY: reset\n"
        invariant !simulate ==> GpioSweep(i, writable, State()) == ResetExchange(writable, old(State())) && console == old(console)
        invariant device == old(device)
      {
        ghost var before := State();
        var g := GpioStatus(i);
        if g.Failure? {
          return Fail(g.error);
        }
        if !simulate {
          QuerySuccessUnlocks(Render(ReadGpio(i)), writable, before);
        }
      }
      r := Pass;
    }

    /**
     * Startup: find the device, then ask for the firmware version and accept
     * only "00000001" or "00000008"; simulate mode does nothing.
     */
    method Setup(accessible: set<string>) returns (r: Outcome<RelayError>)
      requires !locked
      modifies this
      ensures simulate ==> r == Pass && State() == old(State()) && device == old(device)
      ensures !simulate && FindDevice(accessible).Failure? ==>
        r == Fail(FindDevice(accessible).error) && State() == old(State()) && device == old(device)
      ensures !simulate && FindDevice(accessible).Success? ==>
        device == FindDevice(accessible).value &&
        var (v, q) := Query(Render(Version), writable, old(State()));
        State() == q &&
        r == (if v.Failure? then Fail(v.error) else if VersionAccepted(v.value) then Pass else Fail(RelayError(VERSION_ERROR)))
      ensures console == old(console)
    {
      if simulate {
        return Pass;
      }
      var found := FindDevice(accessible);
      if found.Failure? {
        return Fail(found.error);
      }
      device := found.value;
      var ver := RawRelayResponse(Render(Version));
      if ver.Failure? {
        return Fail(ver.error);
      }
      if ver.value != "00000001" && ver.value != "00000008" {
        return Fail(RelayError(VERSION_ERROR));
      }
      r := Pass;
    }
  }
}
