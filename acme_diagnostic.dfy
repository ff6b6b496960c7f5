/**
 * The ACME diagnostic mode: after the operator types "Yes", each key toggles
 * one relay of one head (lower case for Alpine, upper case for Broadway), and
 * a few keys report, reset or leave. An array of sixteen flags remembers
 * which relays the mode has switched on.
 */
module AcmeDiagnostic {
  import opened RelayNames
  import opened Wrappers
  import opened AcmeHw
  import opened AcmeTerminal
  import Text

  /** What a key does in the diagnostic loop. */
  datatype DiagCommand = Toggle(relay: AcmeRelay) | Status | ResetRelays | Help | Exit | Unknown

  /** The keys naming a head's parts, lower case, in `HeadMap` field order. */
  const PartKeys: string := "rgydpfb"

  /** The part of a head a lower-case key names. */
  function PartOf(m: HeadMap, key: char): Option<AcmeRelay> {
    match key
    case 'r' => Some(m.red)
    case 'g' => Some(m.green)
    case 'y' => Some(m.yellow)
    case 'd' => Some(m.direction)
    case 'p' => Some(m.motor)
    case 'f' => Some(m.fold)
    case 'b' => Some(m.bell)
    case _ => None
  }

  function Upper(c: char): char
    requires 'a' <= c <= 'z'
  {
    (c as int - 32) as char
  }

  /**
   * The diagnostic loop's `switch`. A toggling key is a letter: in lower
   * case it names that part of the Alpine head, in upper case the same part
   * of the Broadway head. 's', 'q', 'h' and 'x' in either case report, reset,
   * help and leave; every other key is unknown.
   */
  function Command(ch: char): (c: DiagCommand)
    ensures c.Toggle? && 'a' <= ch <= 'z' ==> PartOf(H1Map, ch) == Some(c.relay)
    ensures c.Toggle? && 'A' <= ch <= 'Z' ==> PartOf(H2Map, (ch as int + 32) as char) == Some(c.relay)
    ensures c.Toggle? ==> 'a' <= ch <= 'z' || 'A' <= ch <= 'Z'
    ensures c == Status <==> ch == 's' || ch == 'S'
    ensures c == ResetRelays <==> ch == 'q' || ch == 'Q'
    ensures c == Help <==> ch == 'h' || ch == 'H'
    ensures c == Exit <==> ch == 'x' || ch == 'X'
  {
    match ch
    case 'r' => Toggle(H1Red)
    case 'R' => Toggle(H2Red)
    case 'g' => Toggle(H1Green)
    case 'G' => Toggle(H2Green)
    case 'y' => Toggle(H1Yellow)
    case 'Y' => Toggle(H2Yellow)
    case 'd' => Toggle(H1MotorDir)
    case 'D' => Toggle(H2MotorDir)
    case 'p' => Toggle(H1MotorPower)
    case 'P' => Toggle(H2MotorPower)
    case 'f' => Toggle(H1Fold)
    case 'F' => Toggle(H2Fold)
    case 'b' => Toggle(H1Bell)
    case 'B' => Toggle(H2Bell)
    case 's' => Status
    case 'S' => Status
    case 'Q' => ResetRelays
    case 'q' => ResetRelays
    case 'H' => Help
    case 'h' => Help
    case 'X' => Exit
    case 'x' => Exit
    case _ => Unknown
  }

  /**
   * Each part key toggles that part of the Alpine head in lower case and of
   * the Broadway head in upper case.
   */
  lemma CommandsFollowHeads()
    ensures forall i | 0 <= i < |PartKeys| ::
      PartOf(H1Map, PartKeys[i]).Some? && Command(PartKeys[i]) == Toggle(PartOf(H1Map, PartKeys[i]).value)
    ensures forall i | 0 <= i < |PartKeys| ::
      PartOf(H2Map, PartKeys[i]).Some? && Command(Upper(PartKeys[i])) == Toggle(PartOf(H2Map, PartKeys[i]).value)
    ensures forall i | 0 <= i < |PartKeys| :: PartOf(H1Map, PartKeys[i]).value == Parts(H1Map)[i]
  {
    assert PartKeys == ['r', 'g', 'y', 'd', 'p', 'f', 'b'];
  }

  /** No other key toggles anything, so the two spare relays cannot be reached. */
  lemma OnlyPartKeysToggle()
    ensures forall ch | Command(ch).Toggle? ::
      (ch in PartKeys || ('A' <= ch <= 'Z' && (ch as int + 32) as char in PartKeys)) &&
      Command(ch).relay != Future7 && Command(ch).relay != Future8
  {
    assert PartKeys == ['r', 'g', 'y', 'd', 'p', 'f', 'b'];
    forall ch | Command(ch).Toggle?
      ensures ch in PartKeys || ('A' <= ch <= 'Z' && (ch as int + 32) as char in PartKeys)
    {
      match ch {
        case 'r' =>
        case 'g' =>
        case 'y' =>
        case 'd' =>
        case 'p' =>
        case 'f' =>
        case 'b' =>
        case 'R' => assert (ch as int + 32) as char == 'r';
        case 'G' => assert (ch as int + 32) as char == 'g';
        case 'Y' => assert (ch as int + 32) as char == 'y';
        case 'D' => assert (ch as int + 32) as char == 'd';
        case 'P' => assert (ch as int + 32) as char == 'p';
        case 'F' => assert (ch as int + 32) as char == 'f';
        case 'B' => assert (ch as int + 32) as char == 'b';
        case _ => assert false;
      }
    }
  }

  /** What one non-exit key does to the flags and the relays. */
  function DiagStep(on: seq<bool>, ch: char): (r: (seq<bool>, seq<HwEvent>))
    requires |on| == RelayCount
    ensures |r.0| == RelayCount
  {
    match Command(ch)
    case Toggle(relay) =>
      var i := AcmeIndex(relay);
      (on[i := !on[i]], [Write(relay, if on[i] then RelayOff else RelayOn)])
    case ResetRelays => (NoneOn(), [ResetAll])
    case _ => (on, [])
  }

  /**
   * 'q' and 'Q' reset the board and clear every flag; a part key flips its
   * relay's flag alone and switches the relay on exactly when the new flag
   * is set; every other key changes nothing and writes nothing.
   */
  lemma DiagStepEffects(on: seq<bool>, ch: char)
    requires |on| == RelayCount
    ensures ch == 'q' || ch == 'Q' ==> DiagStep(on, ch) == (NoneOn(), [ResetAll])
    ensures Command(ch).Toggle? ==>
      var i := AcmeIndex(Command(ch).relay);
      var next := DiagStep(on, ch).0;
      next[i] == !on[i] && (forall j | 0 <= j < RelayCount && j != i :: next[j] == on[j]) &&
      DiagStep(on, ch).1 == [Write(Command(ch).relay, if next[i] then RelayOn else RelayOff)]
    ensures !Command(ch).Toggle? && !Command(ch).ResetRelays? ==> DiagStep(on, ch) == (on, [])
  {
  }

  /** No relay switched on. */
  function NoneOn(): (on: seq<bool>)
    ensures |on| == RelayCount && forall i | 0 <= i < RelayCount :: !on[i]
  {
    seq(RelayCount, i => false)
  }

  /** The result of the diagnostic loop over some keys. */
  datatype DiagResult = DiagResult(on: seq<bool>, events: seq<HwEvent>, rest: seq<Key>, exited: bool)

  /** The diagnostic loop over the keys typed, up to an exit key or the end of the keys. */
  function DiagRun(on: seq<bool>, keys: seq<Key>): (r: DiagResult)
    requires |on| == RelayCount
    ensures |r.on| == RelayCount && |r.rest| <= |keys|
    ensures !r.exited ==> r.rest == []
    decreases |keys|
  {
    if keys == [] then DiagResult(on, [], [], false)
    else if Command(GetChar(keys[0])).Exit? then DiagResult(on, [ResetAll], keys[1..], true)
    else
      var (on1, events) := DiagStep(on, GetChar(keys[0]));
      After(events, DiagRun(on1, keys[1..]))
  }

  /** What came before a run of the loop, put in front of the run. */
  function After(events: seq<HwEvent>, r: DiagResult): (t: DiagResult)
    ensures t.on == r.on && t.rest == r.rest && t.exited == r.exited && t.events == events + r.events
  {
    DiagResult(r.on, events + r.events, r.rest, r.exited)
  }

  lemma AfterAfter(a: seq<HwEvent>, b: seq<HwEvent>, r: DiagResult)
    ensures After(a, After(b, r)) == After(a + b, r)
  {
    Text.AppendAssoc(a, b, r.events);
  }

  /** The flags say exactly which relays are on, and every relay's state is known. */
  predicate Tracks(on: seq<bool>, log: seq<HwEvent>)
    requires |on| == RelayCount
  {
    forall r: AcmeRelay :: Level(log, r) == Some(if on[AcmeIndex(r)] then RelayOn else RelayOff)
  }

  /** The two resets that open the mode leave every relay off, matching the cleared flags. */
  lemma StartTracks(log: seq<HwEvent>)
    ensures Tracks(NoneOn(), log + [ResetAll, ResetAll])
  {
  }

  /** Toggling a relay, resetting, or any other non-exit key keeps the flags in step with the relays. */
  lemma DiagStepTracks(on: seq<bool>, log: seq<HwEvent>, ch: char)
    requires |on| == RelayCount && Tracks(on, log)
    ensures Tracks(DiagStep(on, ch).0, log + DiagStep(on, ch).1)
  {
    var (on1, events) := DiagStep(on, ch);
    var all := log + events;
    if events != [] {
      assert all[..|all| - 1] == log;
    } else {
      assert all == log;
    }
    forall r: AcmeRelay
      ensures Level(all, r) == Some(if on1[AcmeIndex(r)] then RelayOn else RelayOff)
    {
      if Command(ch).Toggle? && Command(ch).relay != r {
        assert AcmeIndex(Command(ch).relay) != AcmeIndex(r);
      }
    }
  }

  /**
   * Throughout the loop the flags show which relays are on, so the status
   * report is right; leaving with the exit key resets every relay to off.
   */
  lemma {:induction false} DiagRunTracks(on: seq<bool>, log: seq<HwEvent>, keys: seq<Key>)
    requires |on| == RelayCount && Tracks(on, log)
    ensures var r := DiagRun(on, keys);
      if r.exited then forall relay: AcmeRelay :: Level(log + r.events, relay) == Some(RelayOff)
      else Tracks(r.on, log + r.events)
    decreases |keys|
  {
    var r := DiagRun(on, keys);
    if keys == [] {
      assert log + r.events == log;
    } else if Command(GetChar(keys[0])).Exit? {
    } else {
      var (on1, events) := DiagStep(on, GetChar(keys[0]));
      DiagStepTracks(on, log, GetChar(keys[0]));
      DiagRunTracks(on1, log + events, keys[1..]);
      Text.AppendAssoc(log, events, DiagRun(on1, keys[1..]).events);
    }
  }

  /** `toggle`: flip one flag and switch the relay to match it. */
  method ToggleRelay(on: array<bool>, relay: AcmeRelay, board: Board)
    requires on.Length == RelayCount
    modifies on, board
    ensures on[..] == old(on[..])[AcmeIndex(relay) := !old(on[AcmeIndex(relay)])]
    ensures board.log == old(board.log) + [Write(relay, if on[AcmeIndex(relay)] then RelayOn else RelayOff)]
  {
    var i := AcmeIndex(relay);
    on[i] := !on[i];
    if on[i] {
      board.Relay(relay, RelayOn);
    } else {
      board.Relay(relay, RelayOff);
    }
  }

  /** One pass of the loop for a key that does not leave it. */
  method DiagKey(on: array<bool>, ch: char, board: Board)
    requires on.Length == RelayCount && !Command(ch).Exit?
    modifies on, board
    ensures on[..] == DiagStep(old(on[..]), ch).0
    ensures board.log == old(board.log) + DiagStep(old(on[..]), ch).1
  {
    match Command(ch) {
      case Toggle(relay) =>
        ToggleRelay(on, relay, board);
      case ResetRelays =>
        board.Reset();
        forall k | 0 <= k < on.Length {
          on[k] := false;
        }
        assert on[..] == NoneOn();
      case _ =>
    }
  }

  /**
   * One pass of the loop: read a key and act on it; the exit key resets every
   * relay. `events` are what it did to the board.
   */
  method DiagRound(term: Terminal, on: array<bool>, board: Board) returns (exit: bool, ghost events: seq<HwEvent>)
    requires on.Length == RelayCount && term.keys != []
    modifies term`keys, on, board
    ensures |term.keys| < |old(term.keys)|
    ensures board.log == old(board.log) + events
    ensures var r := DiagRun(old(on[..]), old(term.keys));
      if exit then r == DiagResult(on[..], events, term.keys, true)
      else r == After(events, DiagRun(on[..], term.keys))
  {
    ghost var on0 := on[..];
    var ch := term.GetKey();
    if Command(ch).Exit? {
      board.Reset();
      return true, [ResetAll];
    }
    events := DiagStep(on0, ch).1;
    DiagKey(on, ch, board);
    return false, events;
  }

  /** The loop of `diagnostic`, reading keys until an exit key or the end of the keys. */
  method DiagnosticLoop(term: Terminal, on: array<bool>, board: Board) returns (exited: bool)
    requires on.Length == RelayCount
    modifies term`keys, on, board
    ensures var r := DiagRun(old(on[..]), old(term.keys));
      on[..] == r.on && board.log == old(board.log) + r.events && exited == r.exited && term.keys == r.rest
  {
    ghost var log0 := board.log;
    ghost var total := DiagRun(on[..], term.keys);
    ghost var done: seq<HwEvent> := [];
    while term.keys != []
      invariant board.log == log0 + done
      invariant total == After(done, DiagRun(on[..], term.keys))
      decreases |term.keys|
    {
      var exit, events := DiagRound(term, on, board);
      Text.AppendAssoc(log0, done, events);
      if exit {
        return true;
      }
      AfterAfter(done, events, DiagRun(on[..], term.keys));
      done := done + events;
    }
    assert done + [] == done;
    return false;
  }

  /**
   * `diagnostic`: reset every relay twice, read the confirmation line with
   * echo, and run the loop only when the operator typed exactly "Yes".
   */
  method Diagnostic(term: Terminal, board: Board) returns (confirmed: bool, exited: bool)
    modifies term, board
    ensures var l := LineFrom(old(term.keys), true);
      var rest := old(term.keys)[l.consumed..];
      var r := DiagRun(NoneOn(), rest);
      confirmed == (l.line == "Yes") &&
      board.log == old(board.log) + [ResetAll, ResetAll] + (if confirmed then r.events else []) &&
      exited == (confirmed && r.exited) &&
      term.shown == old(term.shown) + l.echoed &&
      term.keys == (if confirmed then r.rest else rest)
  {
    ghost var l, log0 := LineFrom(term.keys, true), board.log;
    board.Reset();
    board.Reset();
    assert board.log == log0 + [ResetAll, ResetAll];
    var confirm := term.ReadLine(true);
    if confirm != "Yes" {
      return false, false;
    }
    var on := NewFlags();
    exited := DiagnosticLoop(term, on, board);
    confirmed := true;
  }

  /** `on[]` as `diagnostic` declares it: one flag per relay, all off. */
  method NewFlags() returns (on: array<bool>)
    ensures fresh(on) && on.Length == RelayCount && on[..] == NoneOn()
  {
    on := new bool[RelayCount](_ => false);
    assert on[..] == NoneOn();
  }
}
