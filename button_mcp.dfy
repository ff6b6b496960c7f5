/**
 * The MCP2200 USB button interface: the three 16-byte HID packets the
 * program builds or receives (configure, set/clear outputs, read-all
 * response), the baud-rate divisor arithmetic, and the polling loop that
 * turns falling input bits into digits on the input pipe.
 *
 * The packet layouts are Tables 3, 4 and 12 of Microchip's "MCP2200 HID
 * Interface Command Description". Each packet is a byte array of 16 that the
 * class methods update in place.
 */
module ButtonMcp {
  import opened Bits

  /** Every HID packet is 16 bytes long. */
  const PacketSize: nat := 16

  /** Command bytes (byte 0 of a packet). */
  const CommandSetClearOutput: bv8 := 0x08
  const CommandConfigure: bv8 := 0x10

  /** Byte offsets of the fields. */
  const IoBmpAt: nat := 4
  const AltPinsAt: nat := 5
  const DefaultValAt: nat := 6
  const AltOptionsAt: nat := 7
  const BaudHighAt: nat := 8
  const BaudLowAt: nat := 9
  const PortValAt: nat := 10
  const SetBmapAt: nat := 11
  const ClearBmapAt: nat := 12

  /** The baud-rate clock of the device, in Hz. */
  const Clock: nat := 12000000

  /** The baud rate a new configure packet carries. */
  const DefaultBaud: nat := 9600

  // ---------------------------------------------------------------------
  // Baud-rate divisor
  // ---------------------------------------------------------------------

  /**
   * The divisor `set_baud` stores: `Clock / rate - 1` in unsigned arithmetic,
   * truncated to 16 bits (a rate above the clock gives 0 - 1, which wraps).
   */
  function BaudCode(rate: nat): (code: nat)
    requires rate > 0
    ensures code < 0x1_0000
  {
    (Clock / rate - 1) % 0x1_0000
  }

  /** The rate the `toString` dumps print for a stored divisor. */
  function ReportedRate(divisor: nat): (rate: nat)
    ensures rate <= Clock
    ensures rate == Clock <==> divisor == 0
    ensures divisor >= Clock ==> rate == 0
  {
    Clock / (divisor + 1)
  }

  /** A rate that divides the clock evenly, with a quotient that fits in 16 bits, comes back as itself. */
  lemma BaudRoundTrip(rate: nat)
    requires 0 < rate && Clock % rate == 0 && Clock / rate <= 0x1_0000
    ensures ReportedRate(BaudCode(rate)) == rate
  {
    var q := Clock / rate;
    assert q * rate == Clock;
    assert BaudCode(rate) + 1 == q;
    DivExact(Clock, rate, q);
  }

  /** If `n == q * d` then `n / q == d`. */
  lemma DivExact(n: nat, d: nat, q: nat)
    requires 0 < d && 0 < q && n == q * d
    ensures n / q == d
  {
    DivUnique(n, q, d, 0);
  }

  /** Division is the only quotient with a remainder below the divisor. */
  lemma DivUnique(n: nat, q: nat, d: nat, r: nat)
    requires 0 < q && r < q && n == q * d + r
    ensures n / q == d
  {
    var d', r' := n / q, n % q;
    assert n == q * d' + r';
    if d' < d {
      MulGap(q, d', d);
    } else if d < d' {
      MulGap(q, d, d');
    }
  }

  /** Multiples of `q` by different factors are at least `q` apart. */
  lemma {:induction false} MulGap(q: nat, a: nat, b: nat)
    requires a < b
    ensures q * b - q * a >= q
    decreases b - a
  {
    assert q * b == q * (b - 1) + q;
    if a < b - 1 {
      MulGap(q, a, b - 1);
    }
  }

  /** Any other rate the device can store is reported at or above the rate asked for. */
  lemma BaudReportedAtLeast(rate: nat)
    requires 0 < rate <= Clock && Clock / rate <= 0x1_0000
    ensures ReportedRate(BaudCode(rate)) >= rate
  {
    var q := Clock / rate;
    assert BaudCode(rate) + 1 == q;
    assert q * rate <= Clock;
    DivLowerBound(Clock, q, rate);
  }

  /** If `q * d <= n` then `d <= n / q`. */
  lemma DivLowerBound(n: nat, q: nat, d: nat)
    requires 0 < q && q * d <= n
    ensures d <= n / q
  {
    var d', r' := n / q, n % q;
    assert n == q * d' + r';
    if d' < d {
      MulGap(q, d', d);
    }
  }

  /** Rates too slow for 16 bits wrap around: 183 baud asks for 65572, and 65536 is lost. */
  lemma BaudTooSlowWraps()
    ensures BaudCode(183) == 36
  {
  }

  /** A rate above the clock gives 0 - 1 as an unsigned value: the largest 16-bit divisor. */
  lemma BaudTooFastWraps(rate: nat)
    requires rate > Clock
    ensures BaudCode(rate) == 0xFFFF
  {
  }

  /** The default rate: 12000000 / 9600 - 1. */
  lemma DefaultBaudCode()
    ensures BaudCode(DefaultBaud) == 1249 && ReportedRate(1249) == DefaultBaud
  {
  }

  /** The byte whose unsigned value is `x`. */
  function ByteOf(x: int): (b: bv8)
    requires 0 <= x < 256
    ensures b as int == x
  {
    if x == 0 then 0 else StepUp(ByteOf(x - 1)); ByteOf(x - 1) + 1
  }

  /** Adding one to a byte below 255 adds one to its value. */
  lemma StepUp(b: bv8)
    requires b as int < 255
    ensures (b + 1) as int == b as int + 1
  {
  }

  /** Bytes with the same value are the same byte. */
  lemma SameValueSameByte(b: bv8, c: bv8)
    requires b as int == c as int
    ensures b == c
  {
    assert (b as int) as bv8 == b && (c as int) as bv8 == c;
  }

  /** The high byte of a 16-bit value, `(v >> 8) & 0xFF`. */
  function HighByte(v: nat): (b: bv8)
    requires v < 0x1_0000
  {
    ByteOf(v / 256)
  }

  /** The low byte of a 16-bit value, `v & 0xFF`. */
  function LowByte(v: nat): (b: bv8)
    requires v < 0x1_0000
  {
    ByteOf(v % 256)
  }

  /** The 16-bit value `high << 8 | low`. */
  function Word(high: bv8, low: bv8): (v: nat)
    ensures v < 0x1_0000
  {
    high as nat * 256 + low as nat
  }

  /** Splitting a 16-bit value into its two bytes and joining them gives it back. */
  lemma WordOfBytes(v: nat)
    requires v < 0x1_0000
    ensures Word(HighByte(v), LowByte(v)) == v
  {
  }

  /** Joining two bytes and splitting the value gives them back. */
  lemma BytesOfWord(high: bv8, low: bv8)
    ensures HighByte(Word(high, low)) == high && LowByte(Word(high, low)) == low
  {
    var v := Word(high, low);
    assert v / 256 == high as nat && v % 256 == low as nat;
    SameValueSameByte(HighByte(v), high);
    SameValueSameByte(LowByte(v), low);
  }

  // ---------------------------------------------------------------------
  // The configure packet (Table 4)
  // ---------------------------------------------------------------------

  class ConfigCmd {
    const data: array<bv8>

    ghost predicate Valid()
      reads this
    {
      data.Length == PacketSize
    }

    /** The stored baud divisor, bytes 8 (high) and 9 (low). */
    function Baud(): (v: nat)
      requires Valid()
      reads this, data
      ensures v < 0x1_0000
      ensures HighByte(v) == data[BaudHighAt] && LowByte(v) == data[BaudLowAt]
    {
      BytesOfWord(data[BaudHighAt], data[BaudLowAt]);
      Word(data[BaudHighAt], data[BaudLowAt])
    }

    /** A zeroed packet with the configure command and 9600 baud. */
    constructor()
      ensures Valid() && fresh(data)
      ensures data[0] == CommandConfigure && Baud() == BaudCode(DefaultBaud)
      ensures forall i | 0 < i < PacketSize && i != BaudHighAt && i != BaudLowAt :: data[i] == 0
    {
      data := new bv8[PacketSize](_ => 0);
      new;
      data[0] := CommandConfigure;
      SetBaud(DefaultBaud);
    }

    /** Store one byte of the packet. */
    method SetByte(at: nat, v: bv8)
      requires Valid() && at < PacketSize
      modifies data
      ensures data[..] == old(data[..])[at := v]
    {
      data[at] := v;
    }

    method SetIoBmp(v: bv8)
      requires Valid()
      modifies data
      ensures data[..] == old(data[..])[IoBmpAt := v]
    {
      SetByte(IoBmpAt, v);
    }

    method SetConfigAltPins(v: bv8)
      requires Valid()
      modifies data
      ensures data[..] == old(data[..])[AltPinsAt := v]
    {
      SetByte(AltPinsAt, v);
    }

    method SetIoDefaultValBmap(v: bv8)
      requires Valid()
      modifies data
      ensures data[..] == old(data[..])[DefaultValAt := v]
    {
      SetByte(DefaultValAt, v);
    }

    method SetConfigAltOptions(v: bv8)
      requires Valid()
      modifies data
      ensures data[..] == old(data[..])[AltOptionsAt := v]
    {
      SetByte(AltOptionsAt, v);
    }

    /** Store the divisor for `rate`, high byte first; the other 14 bytes stay. */
    method SetBaud(rate: nat)
      requires Valid() && rate > 0
      modifies data
      ensures Baud() == BaudCode(rate)
      ensures forall i | 0 <= i < PacketSize && i != BaudHighAt && i != BaudLowAt :: data[i] == old(data[i])
    {
      var code := BaudCode(rate);
      data[BaudHighAt] := HighByte(code);
      data[BaudLowAt] := LowByte(code);
      WordOfBytes(code);
    }
  }

  /** A byte of a packet set by a setter reads back; the other fifteen are those of before. */
  lemma SetterChangesOneByte(before: seq<bv8>, at: nat, v: bv8)
    requires |before| == PacketSize && at < PacketSize
    ensures before[at := v][at] == v
    ensures forall i | 0 <= i < PacketSize && i != at :: before[at := v][i] == before[i]
    ensures |set i | 0 <= i < PacketSize && before[at := v][i] != before[i]| <= 1
  {
    var changed := set i | 0 <= i < PacketSize && before[at := v][i] != before[i];
    assert changed <= {at};
    SubsetCard(changed, {at});
  }

  lemma SubsetCard(a: set<nat>, b: set<nat>)
    requires a <= b
    ensures |a| <= |b|
  {
    if a != {} {
      var x :| x in a;
      SubsetCard(a - {x}, b - {x});
    }
  }

  // ---------------------------------------------------------------------
  // The read-all response (Table 12)
  // ---------------------------------------------------------------------

  class ReadAllResponse {
    const data: array<bv8>

    ghost predicate Valid()
      reads this
    {
      data.Length == PacketSize
    }

    /** An all-zero buffer for the device to fill. */
    constructor()
      ensures Valid() && fresh(data)
      ensures forall i | 0 <= i < PacketSize :: data[i] == 0
    {
      data := new bv8[PacketSize](_ => 0);
    }

    /** The divisor the device reports, bytes 8 (high) and 9 (low). */
    function Baud(): (v: nat)
      requires Valid()
      reads this, data
      ensures v < 0x1_0000
      ensures HighByte(v) == data[BaudHighAt] && LowByte(v) == data[BaudLowAt]
    {
      BytesOfWord(data[BaudHighAt], data[BaudLowAt]);
      Word(data[BaudHighAt], data[BaudLowAt])
    }
  }

  // ---------------------------------------------------------------------
  // The set/clear outputs packet (Table 3)
  // ---------------------------------------------------------------------

  /** The bitmaps after `set(bits)`: those bits join the set map and leave the clear map. */
  function SetBits(setMap: bv8, clearMap: bv8, bits: bv8): (r: (bv8, bv8))
  {
    (setMap | bits, clearMap & !bits)
  }

  /** The bitmaps after `clear(bits)`: those bits join the clear map and leave the set map. */
  function ClearBits(setMap: bv8, clearMap: bv8, bits: bv8): (r: (bv8, bv8))
  {
    (setMap & !bits, clearMap | bits)
  }

  /** No pin is both set and cleared. */
  predicate Disjoint(m: (bv8, bv8)) {
    m.0 & m.1 == 0
  }

  /** Every pin is either set or cleared. */
  predicate Covers(m: (bv8, bv8)) {
    m.0 | m.1 == 0xFF
  }

  /** `set` and `clear` never make a pin both set and cleared. */
  lemma SetClearKeepDisjoint(m: (bv8, bv8), bits: bv8)
    requires Disjoint(m)
    ensures Disjoint(SetBits(m.0, m.1, bits)) && Disjoint(ClearBits(m.0, m.1, bits))
  {
  }

  /** `set` and `clear` never leave a pin neither set nor cleared. */
  lemma SetClearKeepCover(m: (bv8, bv8), bits: bv8)
    requires Covers(m)
    ensures Covers(SetBits(m.0, m.1, bits)) && Covers(ClearBits(m.0, m.1, bits))
  {
  }

  /** A call of `set` or `clear` on the packet. */
  datatype BitsOp = SetOp(bits: bv8) | ClearOp(bits: bv8)

  /** The bitmaps after a run of `set` and `clear` calls, in order. */
  function Replay(m: (bv8, bv8), ops: seq<BitsOp>): (bv8, bv8)
  {
    if ops == [] then m
    else
      var last := ops[|ops| - 1];
      var before := Replay(m, ops[..|ops| - 1]);
      match last
      case SetOp(bits) => SetBits(before.0, before.1, bits)
      case ClearOp(bits) => ClearBits(before.0, before.1, bits)
  }

  /** The bitmaps of a new packet: nothing set, everything cleared. */
  const NewMaps: (bv8, bv8) := (0x00, 0xFF)

  /**
   * However a new packet is then set and cleared, every pin is in exactly
   * one of the two maps.
   */
  lemma {:induction false} ReplayFromNew(ops: seq<BitsOp>)
    ensures Disjoint(Replay(NewMaps, ops)) && Covers(Replay(NewMaps, ops))
  {
    if ops != [] {
      var before := Replay(NewMaps, ops[..|ops| - 1]);
      ReplayFromNew(ops[..|ops| - 1]);
      SetClearKeepDisjoint(before, ops[|ops| - 1].bits);
      SetClearKeepCover(before, ops[|ops| - 1].bits);
    }
  }

  /** After `set(bits)` those bits are set and not cleared; the other bits keep both maps. */
  lemma SetActs(setMap: bv8, clearMap: bv8, bits: bv8)
    ensures SetBits(setMap, clearMap, bits).0 & bits == bits && SetBits(setMap, clearMap, bits).1 & bits == 0
    ensures SetBits(setMap, clearMap, bits).0 & !bits == setMap & !bits
    ensures SetBits(setMap, clearMap, bits).1 & !bits == clearMap & !bits
  {
  }

  /** After `clear(bits)` those bits are cleared and not set; the other bits keep both maps. */
  lemma ClearActs(setMap: bv8, clearMap: bv8, bits: bv8)
    ensures ClearBits(setMap, clearMap, bits).1 & bits == bits && ClearBits(setMap, clearMap, bits).0 & bits == 0
    ensures ClearBits(setMap, clearMap, bits).0 & !bits == setMap & !bits
    ensures ClearBits(setMap, clearMap, bits).1 & !bits == clearMap & !bits
  {
  }

  class SetClearAll {
    const data: array<bv8>

    /** The set bitmap (byte 11) and the clear bitmap (byte 12). */
    function Maps(): (bv8, bv8)
      requires data.Length == PacketSize
      reads this, data
    {
      (data[SetBmapAt], data[ClearBmapAt])
    }

    ghost predicate Valid()
      reads this
    {
      data.Length == PacketSize
    }

    /** A zeroed packet with the set/clear command, every pin in the clear map. */
    constructor()
      ensures Valid() && fresh(data)
      ensures data[0] == CommandSetClearOutput && Maps() == NewMaps
      ensures forall i | 0 < i < PacketSize && i != ClearBmapAt :: data[i] == 0
    {
      data := new bv8[PacketSize](_ => 0);
      new;
      data[0] := CommandSetClearOutput;
      data[ClearBmapAt] := 0xFF;
      data[SetBmapAt] := 0x00;
    }

    method Set(bits: bv8)
      requires Valid()
      modifies data
      ensures Maps() == SetBits(old(Maps()).0, old(Maps()).1, bits)
      ensures forall i | 0 <= i < PacketSize && i != SetBmapAt && i != ClearBmapAt :: data[i] == old(data[i])
    {
      var setMap, clearMap := data[SetBmapAt], data[ClearBmapAt];
      data[SetBmapAt] := setMap | bits;
      data[ClearBmapAt] := clearMap & !bits;
    }

    method Clear(bits: bv8)
      requires Valid()
      modifies data
      ensures Maps() == ClearBits(old(Maps()).0, old(Maps()).1, bits)
      ensures forall i | 0 <= i < PacketSize && i != SetBmapAt && i != ClearBmapAt :: data[i] == old(data[i])
    {
      var setMap, clearMap := data[SetBmapAt], data[ClearBmapAt];
      data[ClearBmapAt] := clearMap | bits;
      data[SetBmapAt] := setMap & !bits;
    }
  }

  // ---------------------------------------------------------------------
  // Edge detection on the GPIO port
  // ---------------------------------------------------------------------

  /** The bits that were 1 and are now 0: `~current & old_bits`. */
  function Delta(current: bv8, oldBits: bv8): bv8
  {
    !current & oldBits
  }

  /** Bit `i` of the delta is set exactly when bit `i` fell. */
  lemma DeltaBit(current: bv8, oldBits: bv8, i: nat)
    requires i < 8
    ensures Bit(Delta(current, oldBits), i) == Falls(current, oldBits, i)
  {
    if i == 0 {
    } else if i == 1 {
    } else if i == 2 {
    } else if i == 3 {
    } else if i == 4 {
    } else if i == 5 {
    } else if i == 6 {
    } else {
    }
  }

  /** The digit written for bit `i`: `'0' + i`. */
  function Digit(i: nat): char
    requires i < 8
  {
    ('0' as int + i) as char
  }

  /** The digits for the set bits 0..`n - 1` of `delta`, in ascending order. */
  function DigitsTo(delta: bv8, n: nat): string
    requires n <= 8
  {
    if n == 0 then [] else DigitsTo(delta, n - 1) + (if Bit(delta, n - 1) then [Digit(n - 1)] else [])
  }

  /** What one poll writes to the input pipe: nothing when the port is unchanged, else digits of bits 0..7. */
  function Edges(current: bv8, oldBits: bv8): (s: string)
    ensures current == oldBits ==> s == []
    ensures forall c | c in s :: '0' <= c <= '7'
  {
    if current == oldBits then []
    else
      DigitsToAscending(Delta(current, oldBits), 8);
      DigitsTo(Delta(current, oldBits), 8)
  }

  /** The digits for bits 0..`n - 1` are below `'0' + n` and strictly ascending. */
  lemma {:induction false} DigitsToAscending(delta: bv8, n: nat)
    requires n <= 8
    ensures forall c | c in DigitsTo(delta, n) :: '0' as int <= c as int < '0' as int + n
    ensures forall p, q | 0 <= p < q < |DigitsTo(delta, n)| :: DigitsTo(delta, n)[p] < DigitsTo(delta, n)[q]
  {
    if n > 0 {
      DigitsToAscending(delta, n - 1);
      var done := DigitsTo(delta, n - 1);
      var r := DigitsTo(delta, n);
      forall p, q | 0 <= p < q < |r| ensures r[p] < r[q] {
        if q < |done| {
          assert r[p] == done[p] && r[q] == done[q];
        } else {
          assert r[p] == done[p] && r[p] in done;
          assert r[q] == Digit(n - 1);
        }
      }
    }
  }

  /** The digit of bit `j < n` is among those for bits 0..`n - 1` exactly when bit `j` is set. */
  lemma {:induction false} DigitsToMembers(delta: bv8, n: nat)
    requires n <= 8
    ensures forall j | 0 <= j < n :: Digit(j) in DigitsTo(delta, n) <==> Bit(delta, j)
    ensures forall c | c in DigitsTo(delta, n) :: exists j | 0 <= j < n :: c == Digit(j)
  {
    if n > 0 {
      DigitsToMembers(delta, n - 1);
      DigitsToAscending(delta, n - 1);
      var done := DigitsTo(delta, n - 1);
      forall j | 0 <= j < n ensures Digit(j) in DigitsTo(delta, n) <==> Bit(delta, j) {
        if j == n - 1 {
          assert Digit(j) !in done;
        }
      }
    }
  }

  /**
   * One poll writes digit `'0' + i` exactly for the bits that were 1 in the
   * previous read and are 0 now, only such digits, in ascending order.
   */
  lemma EdgesExact(current: bv8, oldBits: bv8)
    ensures forall i | 0 <= i < 8 :: Digit(i) in Edges(current, oldBits) <==> Falls(current, oldBits, i)
    ensures forall c | c in Edges(current, oldBits) :: exists i | 0 <= i < 8 :: c == Digit(i)
    ensures forall p, q | 0 <= p < q < |Edges(current, oldBits)| :: Edges(current, oldBits)[p] < Edges(current, oldBits)[q]
  {
    var delta := Delta(current, oldBits);
    DigitsToMembers(delta, 8);
    DigitsToAscending(delta, 8);
    forall i | 0 <= i < 8 ensures Digit(i) in Edges(current, oldBits) <==> Falls(current, oldBits, i) {
      DeltaBit(current, oldBits, i);
      if current == oldBits {
        assert !Falls(current, oldBits, i);
      }
    }
  }

  /** What the program writes over a run of port reads, `old_bits` starting at 0. */
  function AllEdges(samples: seq<bv8>): (s: string)
    ensures forall c | c in s :: '0' <= c <= '7'
  {
    if samples == [] then [] else AllEdges(samples[..|samples| - 1]) + Edges(samples[|samples| - 1], LastRead(samples[..|samples| - 1]))
  }

  /** The value `old_bits` holds after a run of reads. */
  function LastRead(samples: seq<bv8>): bv8
  {
    if samples == [] then 0x00 else samples[|samples| - 1]
  }

  /** Since `old_bits` starts at 0 no bit can fall on the first read: it writes nothing. */
  lemma FirstReadSilent(current: bv8)
    ensures AllEdges([current]) == []
  {
    assert [current][..0] == [];
    assert Delta(current, 0x00) == 0x00;
    NoBitsNoDigits(8);
  }

  /** A delta with no bit set writes nothing. */
  lemma {:induction false} NoBitsNoDigits(n: nat)
    requires n <= 8
    ensures DigitsTo(0x00, n) == []
  {
    if n > 0 {
      NoBitsNoDigits(n - 1);
    }
  }

  /** One poll's edge detection, as the program writes it: a loop over the eight bits. */
  method EmitEdges(current: bv8, oldBits: bv8) returns (out: string)
    ensures out == Edges(current, oldBits)
  {
    out := [];
    if current != oldBits {
      var delta := !current & oldBits;
      for i := 0 to 8
        invariant out == DigitsTo(delta, i)
      {
        if delta & Mask(i) != 0 {
          out := out + [('0' as int + i) as char];
        }
      }
    }
  }

  /** The polling loop over a run of port values. */
  method Poll(samples: seq<bv8>) returns (out: string)
    ensures out == AllEdges(samples)
  {
    out := [];
    var oldBits: bv8 := 0x00;
    for n := 0 to |samples|
      invariant out == AllEdges(samples[..n])
      invariant oldBits == LastRead(samples[..n])
    {
      var current := samples[n];
      var sent := EmitEdges(current, oldBits);
      assert samples[..n + 1][..n] == samples[..n];
      out := out + sent;
      oldBits := current;
    }
    assert samples[..|samples|] == samples;
  }
}
