/**
 * The button box firmware: it samples the two 8-bit input ports B and D
 * over and over and sends one USB key press for each pin that has just been
 * pulled low. Port B bit `i` sends the `i`-th letter from A, port D bit `i`
 * the `i`-th letter from M. The pins have pull-ups, so a pressed button reads
 * 0; the previous samples start all ones, so a pin already low when the
 * firmware starts counts as a press on the first scan.
 *
 * The USB set-up, the clock prescaler and the 2 ms debounce delay are not
 * part of the model; the port samples are the input.
 */
module GpioToKey {
  import opened Bits

  /**
   * USB HID usage code of the letter A (and of M): the codes the firmware
   * sends. The firmware takes them from the Teensy keyboard header
   * `usb_keyboard.h`, which is not part of this model; the values are those
   * of the USB HID usage tables.
   */
  const KeyA: int := 4
  const KeyM: int := 16

  /** Both previous samples start with every bit 1. */
  const Idle: bv8 := 0xFF

  /** A code the firmware can send: a letter A..H (port B) or M..T (port D). */
  predicate SentCode(k: int) {
    KeyA <= k < KeyA + 8 || KeyM <= k < KeyM + 8
  }

  /** Where a code comes in one scan: B0, D0, B1, D1, ..., B7, D7. */
  function ScanSlot(k: int): (slot: nat)
    requires SentCode(k)
    ensures slot < 16
  {
    if k < KeyM then 2 * (k - KeyA) else 2 * (k - KeyM) + 1
  }

  /**
   * Which of the eight bits fell from `before` to `now`: bit `i` is set
   * exactly when the scan's test `(now & mask) == 0 && (before & mask) != 0`
   * holds for the mask `1 << i`.
   */
  function FallenBits(now: bv8, before: bv8): (e: seq<bool>)
    ensures |e| == 8
    ensures forall i | 0 <= i < 8 :: e[i] == (now & Mask(i) == 0 && before & Mask(i) != 0)
  {
    seq(8, i requires 0 <= i < 8 => Falls(now, before, i))
  }

  /** The presses for bit `i` alone, given the falling edges of port B and port D: the B press first. */
  function BitPresses(fb: seq<bool>, fd: seq<bool>, i: nat): seq<int>
    requires |fb| == |fd| == 8 && i < 8
  {
    (if fb[i] then [KeyA + i] else []) + (if fd[i] then [KeyM + i] else [])
  }

  /** The presses of bits 0..`n - 1`, bit by bit. */
  function ScanTo(fb: seq<bool>, fd: seq<bool>, n: nat): seq<int>
    requires |fb| == |fd| == 8 && n <= 8
  {
    if n == 0 then [] else ScanTo(fb, fd, n - 1) + BitPresses(fb, fd, n - 1)
  }

  /** The presses of one scan of samples `b`, `d` after samples `bPrev`, `dPrev`. */
  function ScanPresses(b: bv8, d: bv8, bPrev: bv8, dPrev: bv8): (r: seq<int>)
    ensures forall k | k in r :: SentCode(k)
  {
    ScanToCodes(FallenBits(b, bPrev), FallenBits(d, dPrev), 8);
    ScanTo(FallenBits(b, bPrev), FallenBits(d, dPrev), 8)
  }

  /** The presses of bits 0..`n - 1` are codes the firmware sends, before scan slot `2 * n`. */
  lemma {:induction false} ScanToCodes(fb: seq<bool>, fd: seq<bool>, n: nat)
    requires |fb| == |fd| == 8 && n <= 8
    ensures forall k | k in ScanTo(fb, fd, n) :: SentCode(k) && ScanSlot(k) < 2 * n
  {
    if n > 0 {
      ScanToCodes(fb, fd, n - 1);
    }
  }

  /** Every code in `r` is one the firmware sends, each later one in a later scan slot. */
  predicate InScanOrder(r: seq<int>) {
    forall p, q | 0 <= p < q < |r| :: SentCode(r[p]) && SentCode(r[q]) && ScanSlot(r[p]) < ScanSlot(r[q])
  }

  /** Two runs in scan order, the first wholly before the second, make one run in scan order. */
  lemma InScanOrderAppend(a: seq<int>, b: seq<int>)
    requires InScanOrder(a) && InScanOrder(b)
    requires forall x, y | x in a && y in b :: SentCode(x) && SentCode(y) && ScanSlot(x) < ScanSlot(y)
    ensures InScanOrder(a + b)
  {
    var r := a + b;
    forall p, q | 0 <= p < q < |r| ensures SentCode(r[p]) && SentCode(r[q]) && ScanSlot(r[p]) < ScanSlot(r[q]) {
      if q < |a| {
        assert r[p] == a[p] && r[q] == a[q];
      } else if p < |a| {
        assert r[p] == a[p] && a[p] in a;
        assert r[q] == b[q - |a|] && b[q - |a|] in b;
      } else {
        assert r[p] == b[p - |a|] && r[q] == b[q - |a|];
      }
    }
  }

  /** The presses of bits 0..`n - 1` come in scan order, each at most once. */
  lemma {:induction false} ScanToOrdered(fb: seq<bool>, fd: seq<bool>, n: nat)
    requires |fb| == |fd| == 8 && n <= 8
    ensures InScanOrder(ScanTo(fb, fd, n))
  {
    if n > 0 {
      ScanToOrdered(fb, fd, n - 1);
      ScanToCodes(fb, fd, n - 1);
      var done, here := ScanTo(fb, fd, n - 1), BitPresses(fb, fd, n - 1);
      assert InScanOrder(here);
      forall x, y | x in done && y in here
        ensures SentCode(x) && SentCode(y) && ScanSlot(x) < ScanSlot(y)
      {
        assert y == KeyA + (n - 1) || y == KeyM + (n - 1);
      }
      InScanOrderAppend(done, here);
    }
  }

  /** Bit `j` of port B (of port D) is pressed in a scan of bits 0..`n - 1` exactly when it fell. */
  lemma {:induction false} ScanToMembers(fb: seq<bool>, fd: seq<bool>, n: nat)
    requires |fb| == |fd| == 8 && n <= 8
    ensures forall j | 0 <= j < n :: (KeyA + j in ScanTo(fb, fd, n) <==> fb[j]) && (KeyM + j in ScanTo(fb, fd, n) <==> fd[j])
  {
    if n > 0 {
      ScanToMembers(fb, fd, n - 1);
      ScanToCodes(fb, fd, n - 1);
      var done := ScanTo(fb, fd, n - 1);
      var here := BitPresses(fb, fd, n - 1);
      var r := done + here;
      assert forall k | k in here :: k == KeyA + (n - 1) || k == KeyM + (n - 1);
      forall j | 0 <= j < n
        ensures (KeyA + j in r <==> fb[j]) && (KeyM + j in r <==> fd[j])
      {
        if j == n - 1 {
          assert KeyA + j !in done && KeyM + j !in done;
        } else {
          assert KeyA + j !in here && KeyM + j !in here;
        }
      }
    }
  }

  /**
   * A scan sends a press for a bit exactly when that bit fell, in the order
   * B0, D0, B1, D1, ..., B7, D7.
   */
  lemma ScanPressesExact(b: bv8, d: bv8, bPrev: bv8, dPrev: bv8)
    ensures forall j | 0 <= j < 8 ::
      (KeyA + j in ScanPresses(b, d, bPrev, dPrev) <==> Falls(b, bPrev, j)) &&
      (KeyM + j in ScanPresses(b, d, bPrev, dPrev) <==> Falls(d, dPrev, j))
    ensures InScanOrder(ScanPresses(b, d, bPrev, dPrev))
  {
    var fb, fd := FallenBits(b, bPrev), FallenBits(d, dPrev);
    assert forall j | 0 <= j < 8 :: fb[j] == Falls(b, bPrev, j) && fd[j] == Falls(d, dPrev, j);
    ScanToMembers(fb, fd, 8);
    ScanToOrdered(fb, fd, 8);
  }

  /** No falling edge, no press. */
  lemma {:induction false} NoEdgesSilent(fb: seq<bool>, fd: seq<bool>, n: nat)
    requires |fb| == |fd| == 8 && n <= 8
    requires forall j | 0 <= j < 8 :: !fb[j] && !fd[j]
    ensures ScanTo(fb, fd, n) == []
  {
    if n > 0 {
      NoEdgesSilent(fb, fd, n - 1);
    }
  }

  /** A scan whose samples equal the previous ones sends nothing. */
  lemma UnchangedScanSilent(b: bv8, d: bv8)
    ensures ScanPresses(b, d, b, d) == []
  {
    NoEdgesSilent(FallenBits(b, b), FallenBits(d, d), 8);
  }

  /** The first scan sends a press for every pin that is already low. */
  lemma FirstScanLowPins(b: bv8, d: bv8)
    ensures forall j | 0 <= j < 8 ::
      (KeyA + j in ScanPresses(b, d, Idle, Idle) <==> !Bit(b, j)) &&
      (KeyM + j in ScanPresses(b, d, Idle, Idle) <==> !Bit(d, j))
  {
    ScanPressesExact(b, d, Idle, Idle);
    forall j | 0 <= j < 8
      ensures Falls(b, Idle, j) == !Bit(b, j) && Falls(d, Idle, j) == !Bit(d, j)
    {
      AllOnes(j);
    }
  }

  /** The samples the scan after `samples` compares against. */
  function Previous(samples: seq<(bv8, bv8)>): (bv8, bv8)
  {
    if samples == [] then (Idle, Idle) else samples[|samples| - 1]
  }

  /** Every press the firmware sends over a run of port samples, in order. */
  function AllPresses(samples: seq<(bv8, bv8)>): (r: seq<int>)
    ensures forall k | k in r :: SentCode(k)
  {
    if samples == [] then []
    else
      var before := samples[..|samples| - 1];
      var (b, d) := samples[|samples| - 1];
      AllPresses(before) + ScanPresses(b, d, Previous(before).0, Previous(before).1)
  }

  /** Holding the ports unchanged for one more scan sends nothing more: a held pin sends once. */
  lemma HeldSamplesSendOnce(samples: seq<(bv8, bv8)>, s: (bv8, bv8))
    ensures AllPresses(samples + [s, s]) == AllPresses(samples + [s])
  {
    var once := samples + [s];
    assert (samples + [s, s])[..|once|] == once;
    UnchangedScanSilent(s.0, s.1);
  }

  /** One scan of both ports, walking a one-bit mask from bit 0 to bit 7. */
  method Scan(b: bv8, d: bv8, bPrev: bv8, dPrev: bv8) returns (presses: seq<int>)
    ensures presses == ScanPresses(b, d, bPrev, dPrev)
  {
    ghost var fb, fd := FallenBits(b, bPrev), FallenBits(d, dPrev);
    presses := [];
    var mask: bv8 := 1;
    var i := 0;
    while i < 8
      invariant 0 <= i <= 8 && mask == Mask(i)
      invariant presses == ScanTo(fb, fd, i)
    {
      var sent;
      sent, mask := ScanBit(b, d, bPrev, dPrev, i, mask);
      presses := presses + sent;
      i := i + 1;
    }
  }

  /** The body of the scan loop: the presses for the bit under `mask`, and the mask shifted to the next bit. */
  method ScanBit(b: bv8, d: bv8, bPrev: bv8, dPrev: bv8, i: nat, mask: bv8) returns (sent: seq<int>, next: bv8)
    requires i < 8 && mask == Mask(i)
    ensures sent == BitPresses(FallenBits(b, bPrev), FallenBits(d, dPrev), i)
    ensures next == Mask(i + 1)
  {
    var fromB := PortPress(b, bPrev, i, mask, KeyA);
    var fromD := PortPress(d, dPrev, i, mask, KeyM);
    sent := fromB + fromD;
    MaskStep(i);
    next := mask << 1;
  }

  /** The test of one port's bit under `mask`: the press of that bit's key when it fell. */
  method PortPress(now: bv8, before: bv8, i: nat, mask: bv8, first: int) returns (sent: seq<int>)
    requires i < 8 && mask == Mask(i)
    ensures sent == if FallenBits(now, before)[i] then [first + i] else []
  {
    sent := [];
    if now & mask == 0 && before & mask != 0 {
      sent := [first + i];
    }
  }

  /** The firmware's main loop over a run of port samples. */
  method Firmware(samples: seq<(bv8, bv8)>) returns (presses: seq<int>)
    ensures presses == AllPresses(samples)
  {
    presses := [];
    var bPrev, dPrev := Idle, Idle;
    for n := 0 to |samples|
      invariant presses == AllPresses(samples[..n])
      invariant (bPrev, dPrev) == Previous(samples[..n])
    {
      var (b, d) := samples[n];
      var sent := Scan(b, d, bPrev, dPrev);
      assert samples[..n + 1][..n] == samples[..n];
      presses := presses + sent;
      bPrev, dPrev := b, d;
    }
    assert samples[..|samples|] == samples;
  }
}
