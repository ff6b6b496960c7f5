/**
 * The host side of the AVR button box: the daemon that grabs the Teensy's
 * keyboard device, reads its input events, and writes one digit per button
 * press into the garden's input pipe.
 *
 * The device is modelled by the reads it will deliver, in order: each read
 * returns one input event or fails. When the model runs out of feed, that
 * counts as a failed read. Opening, grabbing and closing the device, and the
 * sleeps between attempts, are not modelled.
 */
module ButtonAvr {
  import opened Wrappers
  import GpioToKey
  import Text

  /** Event type of a key event (`EV_KEY`), and of the scan-code and sync events around it. */
  const EvSyn: nat := 0
  const EvKey: nat := 1
  const EvMsc: nat := 4

  /** The code the reader skips as "some sort of extended code". */
  const ExtendedCode: nat := 69

  /**
   * Linux key codes (`KEY_A` and so on of the kernel's input event codes) of
   * the keys the button box can send. Those definitions are not part of this
   * model; the values are the kernel's.
   */
  const KeyA: nat := 30
  const KeyB: nat := 48
  const KeyC: nat := 46
  const KeyD: nat := 32
  const KeyE: nat := 18
  const KeyF: nat := 33
  const KeyG: nat := 34
  const KeyH: nat := 35
  const KeyM: nat := 50
  const KeyN: nat := 49
  const KeyO: nat := 24
  const KeyP: nat := 25
  const KeyQ: nat := 16
  const KeyR: nat := 19
  const KeyS: nat := 31
  const KeyT: nat := 20

  datatype InputEvent = InputEvent(kind: nat, code: nat, value: int)

  /** One `read` of the device: an event, or a read that returned nothing or an error. */
  datatype ReadResult = Event(event: InputEvent) | ReadFailed

  /** A key going down that the reader reports. */
  predicate Press(e: InputEvent) {
    e.kind == EvKey && e.value == 1 && e.code != ExtendedCode
  }

  /** A read at which the reader stops: a failed read or a reported press. */
  predicate Stops(r: ReadResult) {
    r.ReadFailed? || Press(r.event)
  }

  /**
   * `get_key`: the code of the first reported press and the reads left after
   * it, or -1 at the first failed read (or when the reads run out).
   */
  function NextKey(feed: seq<ReadResult>): (r: (int, seq<ReadResult>))
    ensures |r.1| <= |feed| && r.1 == feed[|feed| - |r.1|..]
    ensures feed != [] ==> |r.1| < |feed|
  {
    if feed == [] then (-1, [])
    else if feed[0].ReadFailed? then (-1, feed[1..])
    else if Press(feed[0].event) then (feed[0].event.code, feed[1..])
    else NextKey(feed[1..])
  }

  /** The position of the first read at which the reader stops, or the number of feed. */
  function FirstStop(feed: seq<ReadResult>): (k: nat)
    ensures k <= |feed|
    ensures forall j | 0 <= j < k :: !Stops(feed[j])
    ensures k < |feed| ==> Stops(feed[k])
  {
    if feed == [] || Stops(feed[0]) then 0 else 1 + FirstStop(feed[1..])
  }

  /**
   * The key the reader returns is decided by the first read that stops it:
   * the code of that press, or -1 if it is a failed read or there is none.
   * Everything before it is skipped and everything after it is left unread.
   */
  lemma {:induction false} NextKeyAtFirstStop(feed: seq<ReadResult>)
    ensures var k := FirstStop(feed);
      NextKey(feed) ==
        if k == |feed| then (-1, [])
        else if feed[k].ReadFailed? then (-1, feed[k + 1..])
        else (feed[k].event.code as int, feed[k + 1..])
  {
    if feed != [] && !Stops(feed[0]) {
      var k := FirstStop(feed);
      NextKeyAtFirstStop(feed[1..]);
      assert FirstStop(feed[1..]) == k - 1;
      if k < |feed| {
        assert feed[1..][k - 1] == feed[k];
        assert feed[1..][k..] == feed[k + 1..];
      }
    }
  }

  /** A key the reader returns is never negative, never the extended code, and came from a press. */
  lemma NextKeyIsPress(feed: seq<ReadResult>)
    ensures NextKey(feed).0 >= 0 ==>
      exists j | 0 <= j < |feed| :: feed[j].Event? && Press(feed[j].event) && feed[j].event.code == NextKey(feed).0
    ensures NextKey(feed).0 != ExtendedCode
  {
    NextKeyAtFirstStop(feed);
  }

  /** The digit the daemon writes to the pipe for a key, if any. */
  function KeyDigit(code: int): (d: Option<char>)
    ensures d.Some? ==> '0' <= d.value <= '8'
  {
    if code == KeyA then Some('0')
    else if code == KeyB then Some('1')
    else if code == KeyC then Some('2')
    else if code == KeyD then Some('3')
    else if code == KeyH then Some('4')
    else if code == KeyM then Some('5')
    else if code == KeyN then Some('6')
    else if code == KeyO then Some('7')
    else if code == KeyP then Some('8')
    else None
  }

  /** Exactly nine keys have a digit, one each, and no two share one. */
  lemma KeyDigitsDistinct()
    ensures forall c1: int, c2: int :: KeyDigit(c1).Some? && KeyDigit(c1) == KeyDigit(c2) ==> c1 == c2
    ensures forall c: int :: KeyDigit(c).Some? <==> c in {KeyA, KeyB, KeyC, KeyD, KeyH, KeyM, KeyN, KeyO, KeyP}
  {
  }

  function DigitText(d: Option<char>): string {
    if d.Some? then [d.value] else []
  }

  /**
   * Everything the daemon writes to the pipe while the device delivers
   * `feed`: `get_key` again and again, each failed read closing and
   * reopening the device, each returned key written as its digit.
   */
  function PipeOutput(feed: seq<ReadResult>): (out: string)
    ensures forall c | c in out :: '0' <= c <= '8'
    decreases |feed|
  {
    if feed == [] then [] else KeyText(NextKey(feed).0) + PipeOutput(NextKey(feed).1)
  }

  /** What the daemon writes for a key `get_key` returned: its digit; nothing after a failed read. */
  function KeyText(key: int): string {
    if key < 0 then [] else DigitText(KeyDigit(key))
  }

  /** What a single read contributes to the pipe, judged on its own. */
  function ReadDigit(r: ReadResult): string {
    if r.Event? && Press(r.event) then DigitText(KeyDigit(r.event.code)) else []
  }

  /** The pipe output read for read, without the reader's loop. */
  function PerRead(feed: seq<ReadResult>): string {
    if feed == [] then [] else ReadDigit(feed[0]) + PerRead(feed[1..])
  }

  lemma {:induction false} PerReadAppend(a: seq<ReadResult>, b: seq<ReadResult>)
    ensures PerRead(a + b) == PerRead(a) + PerRead(b)
  {
    if a != [] {
      assert (a + b)[1..] == a[1..] + b;
      PerReadAppend(a[1..], b);
    } else {
      assert a + b == b;
    }
  }

  /** Reads that do not stop the reader write nothing. */
  lemma {:induction false} SkippedWriteNothing(feed: seq<ReadResult>, k: nat)
    requires k <= |feed|
    requires forall j | 0 <= j < k :: !Stops(feed[j])
    ensures PerRead(feed) == PerRead(feed[k..])
  {
    if k > 0 {
      SkippedWriteNothing(feed[1..], k - 1);
      assert feed[1..][k - 1..] == feed[k..];
    }
  }

  /**
   * The reader loop loses nothing and invents nothing: the pipe receives the
   * digit of every press, in the order of the reads, whatever failed reads
   * and other events lie between them.
   */
  lemma {:induction false} PipeIsPerRead(feed: seq<ReadResult>)
    ensures PipeOutput(feed) == PerRead(feed)
    decreases |feed|
  {
    if feed != [] {
      var k := FirstStop(feed);
      NextKeyAtFirstStop(feed);
      SkippedWriteNothing(feed, k);
      if k < |feed| {
        var rest := feed[k + 1..];
        assert feed[k..][1..] == rest;
        assert PerRead(feed[k..]) == ReadDigit(feed[k]) + PerRead(rest);
        assert ReadDigit(feed[k]) == KeyText(NextKey(feed).0);
        PipeIsPerRead(rest);
      }
    }
  }

  /** Only the digits '0' to '8' ever reach the pipe. */
  lemma {:induction false} PipeDigitsOnly(feed: seq<ReadResult>)
    ensures forall c | c in PipeOutput(feed) :: '0' <= c <= '8'
  {
    PipeIsPerRead(feed);
    PerReadDigits(feed);
  }

  lemma {:induction false} PerReadDigits(feed: seq<ReadResult>)
    ensures forall c | c in PerRead(feed) :: '0' <= c <= '8'
  {
    if feed != [] {
      PerReadDigits(feed[1..]);
    }
  }

  /** The device, as the sequence of reads it has still to deliver. */
  class EventDevice {
    var pending: seq<ReadResult>

    constructor(feed: seq<ReadResult>)
      ensures pending == feed
    {
      pending := feed;
    }

    /** `get_key`: read events until a reported press or a failed read. */
    method GetKey() returns (key: int)
      modifies this
      ensures (key, pending) == NextKey(old(pending))
    {
      while true
        invariant NextKey(pending) == NextKey(old(pending))
        decreases |pending|
      {
        if pending == [] {
          return -1;
        }
        var r := pending[0];
        pending := pending[1..];
        if r.ReadFailed? {
          return -1;
        }
        if r.event.kind == EvKey && r.event.value == 1 {
          if r.event.code == ExtendedCode {
            continue;
          }
          return r.event.code;
        }
      }
    }
  }

  /**
   * `generic_input`: the daemon's loop, run until the device has nothing more
   * to deliver. Returns what was written to the pipe and how many times the
   * device was closed after a failed read.
   */
  method GenericInput(device: EventDevice) returns (out: string, reopened: nat)
    modifies device
    ensures out == PipeOutput(old(device.pending))
    ensures device.pending == []
  {
    out, reopened := [], 0;
    ghost var start := device.pending;
    while device.pending != []
      invariant out + PipeOutput(device.pending) == PipeOutput(start)
      decreases |device.pending|
    {
      ghost var before := device.pending;
      var key := device.GetKey();
      assert PipeOutput(before) == KeyText(key) + PipeOutput(device.pending);
      var text := [];
      if key < 0 {
        reopened := reopened + 1;
      } else {
        var digit := KeyDigit(key);
        if digit.Some? {
          text := [digit.value];
        }
      }
      assert text == KeyText(key);
      Text.AppendAssoc(out, text, PipeOutput(device.pending));
      out := out + text;
    }
  }

  /**
   * The Linux key code the host sees for a USB keyboard usage the firmware
   * sends, for the letters A to H and M to T. The table follows the kernel's
   * HID keyboard usage mapping, which is not part of this model.
   */
  function UsageKey(usage: int): (key: Option<nat>)
    ensures GpioToKey.SentCode(usage) <==> key.Some?
  {
    if usage == 4 then Some(KeyA) else if usage == 5 then Some(KeyB)
    else if usage == 6 then Some(KeyC) else if usage == 7 then Some(KeyD)
    else if usage == 8 then Some(KeyE) else if usage == 9 then Some(KeyF)
    else if usage == 10 then Some(KeyG) else if usage == 11 then Some(KeyH)
    else if usage == 16 then Some(KeyM) else if usage == 17 then Some(KeyN)
    else if usage == 18 then Some(KeyO) else if usage == 19 then Some(KeyP)
    else if usage == 20 then Some(KeyQ) else if usage == 21 then Some(KeyR)
    else if usage == 22 then Some(KeyS) else if usage == 23 then Some(KeyT)
    else None
  }

  /**
   * The events one key press of the firmware produces on the host: scan code,
   * key down, sync, scan code, key up, sync.
   */
  function PressEvents(usage: int, key: nat): seq<ReadResult> {
    [ Event(InputEvent(EvMsc, 4, usage)), Event(InputEvent(EvKey, key, 1)), Event(InputEvent(EvSyn, 0, 0)),
      Event(InputEvent(EvMsc, 4, usage)), Event(InputEvent(EvKey, key, 0)), Event(InputEvent(EvSyn, 0, 0)) ]
  }

  /** The six events of one press write the key's digit, once. */
  lemma PressWritesDigit(usage: int, key: nat)
    requires key != ExtendedCode
    ensures PerRead(PressEvents(usage, key)) == DigitText(KeyDigit(key))
  {
    var p := PressEvents(usage, key);
    SilentFrom(p, 2);
    assert p[1..][1..] == p[2..];
  }

  lemma {:induction false} SilentFrom(feed: seq<ReadResult>, from: nat)
    requires from <= |feed|
    requires forall j | from <= j < |feed| :: ReadDigit(feed[j]) == []
    ensures PerRead(feed[from..]) == []
    decreases |feed| - from
  {
    if from < |feed| {
      SilentFrom(feed, from + 1);
      assert feed[from..][1..] == feed[from + 1..];
    }
  }

  /** The host events for a series of firmware key presses. */
  function HostEvents(usages: seq<int>): seq<ReadResult>
    requires forall u | u in usages :: GpioToKey.SentCode(u)
  {
    if usages == [] then []
    else PressEvents(usages[0], UsageKey(usages[0]).value) + HostEvents(usages[1..])
  }

  /** The digit the pipe receives for a firmware key press. */
  function UsageDigit(usage: int): (d: string)
    requires GpioToKey.SentCode(usage)
    ensures |d| <= 1
    ensures d != [] <==> usage in {4, 5, 6, 7, 11, 16, 17, 18, 19}
    ensures d != [] ==> '0' <= d[0] <= '8'
  {
    DigitText(KeyDigit(UsageKey(usage).value))
  }

  function UsageDigits(usages: seq<int>): string
    requires forall u | u in usages :: GpioToKey.SentCode(u)
  {
    if usages == [] then [] else UsageDigit(usages[0]) + UsageDigits(usages[1..])
  }

  /**
   * End to end from the firmware to the pipe: a series of key presses sent by
   * the Teensy becomes, in the same order, the series of their digits.
   */
  lemma {:induction false} PipeOfFirmwarePresses(usages: seq<int>)
    requires forall u | u in usages :: GpioToKey.SentCode(u)
    ensures PipeOutput(HostEvents(usages)) == UsageDigits(usages)
  {
    PipeIsPerRead(HostEvents(usages));
    PerReadOfPresses(usages);
  }

  lemma {:induction false} PerReadOfPresses(usages: seq<int>)
    requires forall u | u in usages :: GpioToKey.SentCode(u)
    ensures PerRead(HostEvents(usages)) == UsageDigits(usages)
  {
    if usages != [] {
      var p := PressEvents(usages[0], UsageKey(usages[0]).value);
      PerReadAppend(p, HostEvents(usages[1..]));
      PressWritesDigit(usages[0], UsageKey(usages[0]).value);
      PerReadOfPresses(usages[1..]);
    }
  }

  /**
   * The pin table of the button box: port B pins 0 to 3 and 7 give '0' to
   * '4', port D pins 0 to 3 give '5' to '8', the other pins nothing.
   */
  function PinDigit(portD: bool, pin: nat): string
    requires pin < 8
  {
    if !portD then
      (if pin < 4 then ['0' + pin as char] else if pin == 7 then "4" else [])
    else
      (if pin < 4 then ['5' + pin as char] else [])
  }

  /** The firmware's key for each pin and the daemon's digit for each key agree with the pin table. */
  lemma PinsToDigits(pin: nat)
    requires pin < 8
    ensures GpioToKey.SentCode(GpioToKey.KeyA + pin) && GpioToKey.SentCode(GpioToKey.KeyM + pin)
    ensures UsageDigit(GpioToKey.KeyA + pin) == PinDigit(false, pin)
    ensures UsageDigit(GpioToKey.KeyM + pin) == PinDigit(true, pin)
  {
  }
}
