/**
 * The ACME manual mode and the arm keys of the operator's menu.
 *
 * In manual mode the signal steps through four states: Alpine go, both
 * stop, Broadway go, both stop again. Each command the operator types either
 * is handled on the spot (enable or disable a head's arms, ring and flash)
 * or picks the next state ('a' for Alpine go, 'b' for Broadway go, 'x' to
 * leave).
 *
 * The signal as these operations see it is the position of both heads' arms
 * together with the configuration.
 */
module AcmeManual {
  import opened RelayNames
  import opened Wrappers
  import opened AcmeHw
  import opened AcmeTerminal
  import AcmeConf
  import Text

  /** `MANUAL_STATE`. */
  datatype ManualState = AGoBStop | AStopBStop | AStopBGo | AStopBStop2

  /**
   * `next_state`: the state shown after this one when the operator picks
   * none; always another state, and a go state after a go state.
   */
  function NextState(s: ManualState): (n: ManualState)
    ensures n != s && ShowsGo(n) == ShowsGo(s)
  {
    match s
    case AGoBStop => AStopBGo
    case AStopBStop => AStopBStop2
    case AStopBGo => AGoBStop
    case AStopBStop2 => AStopBStop
  }

  /** A state in which one of the heads shows go. */
  predicate ShowsGo(s: ManualState) {
    s == AGoBStop || s == AStopBGo
  }

  /**
   * The successor table pairs the states: two steps come back to where they
   * started, so the two go states and the two stop states alternate.
   */
  lemma NextStatePairs(s: ManualState)
    ensures NextState(NextState(s)) == s
  {
  }

  /** The arms of both heads and the configuration. */
  datatype Signal = Signal(a1: ArmState, a2: ArmState, conf: AcmeConf.Config)

  /** A signal whose arm time fits the `uint32_t` it is stored in. */
  predicate ValidSignal(s: Signal) {
    s.conf.armTime < Text.TWO_32
  }

  datatype HeadId = Alpine | Broadway

  /** An arms key: the head whose arms it folds first, if any, and the head whose arms it enables or disables. */
  datatype ArmsCommand = ArmsCommand(fold: Option<HeadId>, head: HeadId, enable: bool)

  /**
   * The arm keys as the menu and `do_cmd` have them: '1' and '9' fold the
   * Alpine arms, then disable the Alpine and the Broadway arms respectively;
   * '2' and '0' enable them. Only the Alpine arms are ever folded.
   */
  function ArmsKeyAsWritten(c: char): (r: Option<ArmsCommand>)
    ensures r.Some? <==> c in "1290"
    ensures r.Some? && r.value.fold.Some? ==> r.value.fold.value == Alpine && !r.value.enable
  {
    match c
    case '1' => Some(ArmsCommand(Some(Alpine), Alpine, false))
    case '2' => Some(ArmsCommand(None, Alpine, true))
    case '9' => Some(ArmsCommand(Some(Alpine), Broadway, false))
    case '0' => Some(ArmsCommand(None, Broadway, true))
    case _ => None
  }

  /**
   * The arm keys with '9' folding the arms it disables, the Broadway ones:
   * '1' and '2' work the Alpine arms, '9' and '0' the Broadway ones; '2' and
   * '0' enable.
   */
  function ArmsKey(c: char): (r: Option<ArmsCommand>)
    ensures r.Some? ==> (r.value.head == Alpine <==> c in "12") && (r.value.enable <==> c in "20")
  {
    match c
    case '1' => Some(ArmsCommand(Some(Alpine), Alpine, false))
    case '2' => Some(ArmsCommand(None, Alpine, true))
    case '9' => Some(ArmsCommand(Some(Broadway), Broadway, false))
    case '0' => Some(ArmsCommand(None, Broadway, true))
    case _ => None
  }

  /** A key disables a head's arms exactly when it folds them first, and it folds no other head. */
  lemma ArmsKeyFoldsWhatItDisables(c: char)
    ensures ArmsKey(c).Some? ==>
      (ArmsKey(c).value.fold.Some? <==> !ArmsKey(c).value.enable) &&
      (ArmsKey(c).value.fold.Some? ==> ArmsKey(c).value.fold.value == ArmsKey(c).value.head)
    ensures ArmsKey(c).Some? <==> c in "1290"
  {
  }

  /**
   * As written, '9' disables the Broadway arms but folds the Alpine ones;
   * every other key does the same as the corrected table.
   */
  lemma NineFoldsWrongHead(c: char)
    ensures ArmsKeyAsWritten('9').value.fold == Some(Alpine) != Some(ArmsKeyAsWritten('9').value.head)
    ensures c != '9' ==> ArmsKeyAsWritten(c) == ArmsKey(c)
  {
  }

  /** Carry out an arms key on the signal: the fold events, and the new flag. */
  function ArmsStep(s: Signal, cmd: ArmsCommand): (r: (Signal, seq<HwEvent>))
    requires ValidSignal(s)
    ensures ValidSignal(r.0)
  {
    var t := s.conf.armTime;
    var (s1, events) :=
      match cmd.fold
      case None => (s, [])
      case Some(Alpine) => (s.(a1 := ArmNone), FoldEvents(H1Map, s.a1, t))
      case Some(Broadway) => (s.(a2 := ArmNone), FoldEvents(H2Map, s.a2, t));
    var conf := if cmd.head == Alpine then s1.conf.(h1Arms := cmd.enable) else s1.conf.(h2Arms := cmd.enable);
    (s1.(conf := conf), events)
  }

  /**
   * Disabling a head's arms folds them: afterwards the head's arms are in no
   * position, its flag is off, and its motor and fold relays are off; the
   * other head and the arm time are untouched.
   */
  lemma DisableFolds(s: Signal, c: char)
    requires ValidSignal(s) && ArmsKey(c).Some? && !ArmsKey(c).value.enable
    ensures var (s1, events) := ArmsStep(s, ArmsKey(c).value);
      var m := if ArmsKey(c).value.head == Alpine then H1Map else H2Map;
      (ArmsKey(c).value.head == Alpine ==> s1.a1 == ArmNone && !s1.conf.h1Arms && s1.a2 == s.a2) &&
      (ArmsKey(c).value.head == Broadway ==> s1.a2 == ArmNone && !s1.conf.h2Arms && s1.a1 == s.a1) &&
      s1.conf.armTime == s.conf.armTime &&
      (events != [] ==> Level(events, m.motor) == Some(RelayOff) && Level(events, m.fold) == Some(RelayOff))
  {
    HeadMaps();
    var m := if ArmsKey(c).value.head == Alpine then H1Map else H2Map;
    var arms := if ArmsKey(c).value.head == Alpine then s.a1 else s.a2;
    FoldMoves(m, arms, s.conf.armTime);
  }

  /** The pause between the three rounds of 'p': half a second. */
  const RoundPause: nat := 500_000

  /** `ding_and_flash_both`. */
  function DingFlash(): seq<HwEvent> {
    DingEvents() + FlashEvents(15)
  }

  /** One round of 'p': ring and flash, then pause. */
  function PauseRound(): seq<HwEvent> {
    DingFlash() + [USleep(RoundPause)]
  }

  /** The keys `do_cmd` handles itself, after `tolower`. */
  predicate Handled(c: char) {
    ArmsKey(c).Some? || c == 'o' || c == 'p'
  }

  /**
   * What a handled key does: 'o' and 'p' ring and flash and leave the signal
   * as it is; an arms key sets the flag of its head and no other setting.
   */
  function KeyStep(s: Signal, c: char): (r: (Signal, seq<HwEvent>))
    requires ValidSignal(s) && Handled(c)
    ensures ValidSignal(r.0)
    ensures (c == 'o' || c == 'p') ==> r.0 == s && r.1 != []
    ensures ArmsKey(c).Some? ==> r.0.conf.armTime == s.conf.armTime && r.0.conf.password == s.conf.password
    ensures ArmsKey(c).Some? && ArmsKey(c).value.head == Alpine ==>
      r.0.conf.h1Arms == ArmsKey(c).value.enable && r.0.conf.h2Arms == s.conf.h2Arms && r.0.a2 == s.a2
    ensures ArmsKey(c).Some? && ArmsKey(c).value.head == Broadway ==>
      r.0.conf.h2Arms == ArmsKey(c).value.enable && r.0.conf.h1Arms == s.conf.h1Arms && r.0.a1 == s.a1
  {
    if c == 'o' then (s, DingFlash())
    else if c == 'p' then (s, PauseRound() + PauseRound() + PauseRound())
    else ArmsStep(s, ArmsKey(c).value)
  }

  /** What `do_cmd` does with the keys typed: where the signal ends, the events, the keys it leaves, what it returns. */
  datatype CmdRun = CmdRun(signal: Signal, events: seq<HwEvent>, rest: seq<Key>, result: Option<char>, saved: bool)

  /**
   * `do_cmd` with the evidently intended return value: handle keys until one
   * it does not handle, and return that key lower-cased. `None` when the keys
   * run out first (the program would still be waiting); `saved` says whether
   * an arms key rewrote the configuration file.
   */
  function DoCmdRun(s: Signal, keys: seq<Key>): (r: CmdRun)
    requires ValidSignal(s)
    ensures ValidSignal(r.signal) && |r.rest| <= |keys|
    ensures r.signal.conf.armTime == s.conf.armTime && r.signal.conf.password == s.conf.password
    ensures r.result.Some? ==> |r.rest| < |keys|
    ensures r.result.None? ==> r.rest == []
    decreases |keys|
  {
    if keys == [] then CmdRun(s, [], [], None, false)
    else
      var c := AcmeConf.ToLower(GetChar(keys[0]));
      if !Handled(c) then CmdRun(s, [], keys[1..], Some(c), false)
      else
        var step := KeyStep(s, c);
        var r := DoCmdRun(step.0, keys[1..]);
        CmdRun(r.signal, step.1 + r.events, r.rest, r.result, r.saved || ArmsKey(c).Some?)
  }

  /** `do_cmd` reads keys from the front: what it leaves is what follows the keys it reads. */
  lemma {:induction false} DoCmdRunSuffix(s: Signal, keys: seq<Key>)
    requires ValidSignal(s)
    ensures var r := DoCmdRun(s, keys);
      r.rest == keys[|keys| - |r.rest|..]
    decreases |keys|
  {
    if keys != [] && Handled(AcmeConf.ToLower(GetChar(keys[0]))) {
      var c := AcmeConf.ToLower(GetChar(keys[0]));
      DoCmdRunSuffix(KeyStep(s, c).0, keys[1..]);
      var r := DoCmdRun(KeyStep(s, c).0, keys[1..]);
      Text.DropDrop(keys, 1, |keys| - 1 - |r.rest|);
    }
  }

  /**
   * `do_cmd` returns the last key it reads, lower-cased, having handled
   * every key before it; it waits on only when it handles every key.
   */
  lemma {:induction false} DoCmdRunEnds(s: Signal, keys: seq<Key>)
    requires ValidSignal(s)
    ensures var r := DoCmdRun(s, keys);
      r.result.Some? ==>
        (r.result.value == AcmeConf.ToLower(GetChar(keys[|keys| - |r.rest| - 1])) &&
         forall i | 0 <= i < |keys| - |r.rest| - 1 :: Handled(AcmeConf.ToLower(GetChar(keys[i]))))
    ensures var r := DoCmdRun(s, keys);
      r.result.None? <==> forall i | 0 <= i < |keys| :: Handled(AcmeConf.ToLower(GetChar(keys[i])))
    decreases |keys|
  {
    if keys != [] && Handled(AcmeConf.ToLower(GetChar(keys[0]))) {
      var c := AcmeConf.ToLower(GetChar(keys[0]));
      DoCmdRunEnds(KeyStep(s, c).0, keys[1..]);
      assert forall i | 1 <= i < |keys| :: keys[i] == keys[1..][i - 1];
    }
  }

  /**
   * What `do_cmd` returns as written: `true` for 'x' and `false` for any
   * other key it does not handle; never a command letter.
   */
  function DoCmdReturnAsWritten(c: char): (r: char)
    ensures r as int < 2 && r != 'a' && r != 'b' && r != 'x'
  {
    if c == 'x' then 1 as char else 0 as char
  }

  /** The evidently intended return value, the key itself, lets `manual` see 'a', 'b' and 'x'. */
  function DoCmdReturn(c: char): (r: char)
    ensures (r == 'a' <==> c == 'a') && (r == 'b' <==> c == 'b') && (r == 'x' <==> c == 'x')
  {
    c
  }

  /**
   * The states `manual` shows, one per command: 'a' and 'b' pick a state,
   * any other command keeps the current one; 'x' shows it once more and
   * leaves. Also whether the loop left.
   */
  function ManualShown(cur: ManualState, commands: string): (r: (seq<ManualState>, bool))
    ensures |r.0| <= |commands|
    decreases |commands|
  {
    if commands == [] then ([], false)
    else
      var c := commands[0];
      var s := Pick(c, cur);
      if c == 'x' then ([s], true)
      else
        var rest := ManualShown(NextState(s), commands[1..]);
        ([s] + rest.0, rest.1)
  }

  /** With the intended return value `manual` leaves exactly at the first 'x'. */
  lemma {:induction false} ManualLeavesAtX(cur: ManualState, commands: string)
    ensures var (shown, left) := ManualShown(cur, commands);
      (left <==> 'x' in commands) &&
      (left ==> |shown| >= 1 && commands[|shown| - 1] == 'x' && 'x' !in commands[..|shown| - 1]) &&
      (!left ==> |shown| == |commands|)
    decreases |commands|
  {
    if commands != [] && commands[0] != 'x' {
      var c := commands[0];
      var s := Pick(c, cur);
      ManualLeavesAtX(NextState(s), commands[1..]);
      assert commands == [c] + commands[1..];
      var rest := ManualShown(NextState(s), commands[1..]);
      if rest.1 {
        assert commands[..|rest.0| + 1] == [c] + commands[1..][..|rest.0|];
      }
    }
  }

  /**
   * The state a command picks: 'a' and 'b' pick a go state, Alpine's and
   * Broadway's respectively; anything else keeps `otherwise`.
   */
  function Pick(c: char, otherwise: ManualState): (s: ManualState)
    ensures (c == 'a' || c == 'b') ==> ShowsGo(s) && (s == AGoBStop <==> c == 'a')
    ensures !(c == 'a' || c == 'b') ==> s == otherwise
  {
    if c == 'a' then AGoBStop else if c == 'b' then AStopBGo else otherwise
  }

  /**
   * Each command shows what the menu says: 'a' Alpine go, 'b' Broadway go,
   * and any other command the state after the one shown before.
   */
  lemma {:induction false} ManualFollowsCommands(cur: ManualState, commands: string)
    ensures var shown := ManualShown(cur, commands).0;
      |shown| > 0 ==> shown[0] == Pick(commands[0], cur)
    ensures var shown := ManualShown(cur, commands).0;
      forall i | 1 <= i < |shown| :: shown[i] == Pick(commands[i], NextState(shown[i - 1]))
    decreases |commands|
  {
    if commands != [] && commands[0] != 'x' {
      var s := Pick(commands[0], cur);
      ManualFollowsCommands(NextState(s), commands[1..]);
      var shown := ManualShown(cur, commands).0;
      var rest := ManualShown(NextState(s), commands[1..]).0;
      assert shown == [s] + rest;
      forall i | 1 <= i < |shown|
        ensures shown[i] == Pick(commands[i], NextState(shown[i - 1]))
      {
        assert shown[i] == rest[i - 1] && commands[i] == commands[1..][i - 1];
        if i >= 2 {
          assert shown[i - 1] == rest[i - 2];
        }
      }
    }
  }

  /**
   * As written, `do_cmd` returns only `true` or `false`, so `manual` never
   * sees 'a', 'b' or 'x': it never leaves, and only alternates between the
   * two both-stop states.
   */
  lemma {:induction false} ManualAsWrittenNeverLeaves(keys: string)
    ensures var (shown, left) := ManualShown(AStopBStop, Returned(keys));
      !left && |shown| == |keys| &&
      forall i | 0 <= i < |shown| :: shown[i] == (if i % 2 == 0 then AStopBStop else AStopBStop2)
  {
    var commands := Returned(keys);
    assert 'x' !in commands;
    ManualLeavesAtX(AStopBStop, commands);
    ManualFollowsCommands(AStopBStop, commands);
    var shown := ManualShown(AStopBStop, commands).0;
    forall i | 0 <= i < |shown|
      ensures shown[i] == (if i % 2 == 0 then AStopBStop else AStopBStop2)
    {
      AlternatesUpTo(shown, commands, i);
    }
  }

  /** What `do_cmd` as written returns for each key that ends a call. */
  function Returned(keys: string): (r: string)
    ensures |r| == |keys| && forall i | 0 <= i < |r| :: r[i] == DoCmdReturnAsWritten(keys[i])
  {
    if keys == [] then [] else [DoCmdReturnAsWritten(keys[0])] + Returned(keys[1..])
  }

  lemma {:induction false} AlternatesUpTo(shown: seq<ManualState>, commands: string, i: nat)
    requires |shown| <= |commands| && i < |shown|
    requires forall k | 0 <= k < |commands| :: commands[k] != 'a' && commands[k] != 'b'
    requires shown[0] == Pick(commands[0], AStopBStop)
    requires forall k | 1 <= k < |shown| :: shown[k] == Pick(commands[k], NextState(shown[k - 1]))
    ensures shown[i] == (if i % 2 == 0 then AStopBStop else AStopBStop2)
  {
    assert commands[i] != 'a' && commands[i] != 'b';
    if i > 0 {
      AlternatesUpTo(shown, commands, i - 1);
      assert shown[i] == NextState(shown[i - 1]);
      assert (i - 1) % 2 == 0 <==> i % 2 == 1;
    }
  }

  /** `set_state` with the flag that decides whether the Alpine arms move to go. */
  function SetStateWith(state: ManualState, s: Signal, alpineGoArms: bool): (r: (Signal, seq<HwEvent>))
    requires ValidSignal(s)
    ensures r.0.conf == s.conf
  {
    match state
    case AGoBStop => AlpineGo(s, alpineGoArms)
    case AStopBGo => BroadwayGo(s)
    case _ => BothStop(s)
  }

  /** Alpine go: ring if Broadway was at go, Broadway to stop, Alpine to go, ring. */
  function AlpineGo(s: Signal, alpineGoArms: bool): (r: (Signal, seq<HwEvent>))
    requires ValidSignal(s)
  {
    var t := s.conf.armTime;
    var ring := if s.a2 == ArmGo then DingFlash() else [];
    (s.(a1 := ArmsAfter(s.a1, AsConf, alpineGoArms, ArmGo), a2 := ArmsAfter(s.a2, AsConf, s.conf.h2Arms, ArmStop)),
     ring + (StopEvents(H2Map, s.a2, AsConf, s.conf.h2Arms, t) + (GoEvents(H1Map, s.a1, AsConf, alpineGoArms, t) + DingFlash())))
  }

  /** Broadway go: ring if Alpine was at go, Alpine to stop, Broadway to go. */
  function BroadwayGo(s: Signal): (r: (Signal, seq<HwEvent>))
    requires ValidSignal(s)
  {
    var t := s.conf.armTime;
    var ring := if s.a1 == ArmGo then DingFlash() else [];
    (s.(a1 := ArmsAfter(s.a1, AsConf, s.conf.h1Arms, ArmStop), a2 := ArmsAfter(s.a2, AsConf, s.conf.h2Arms, ArmGo)),
     ring + (StopEvents(H1Map, s.a1, AsConf, s.conf.h1Arms, t) + GoEvents(H2Map, s.a2, AsConf, s.conf.h2Arms, t)))
  }

  /** Both stop: ring if either head was at go, then both to stop. */
  function BothStop(s: Signal): (r: (Signal, seq<HwEvent>))
    requires ValidSignal(s)
  {
    var t := s.conf.armTime;
    var ring := if s.a1 == ArmGo || s.a2 == ArmGo then DingFlash() else [];
    (s.(a1 := ArmsAfter(s.a1, AsConf, s.conf.h1Arms, ArmStop), a2 := ArmsAfter(s.a2, AsConf, s.conf.h2Arms, ArmStop)),
     ring + (StopEvents(H1Map, s.a1, AsConf, s.conf.h1Arms, t) + StopEvents(H2Map, s.a2, AsConf, s.conf.h2Arms, t)))
  }

  /**
   * `set_state` as written: Alpine go asks the Broadway arms flag whether the
   * Alpine arms move; every other state is as intended.
   */
  function SetStateAsWritten(state: ManualState, s: Signal): (r: (Signal, seq<HwEvent>))
    requires ValidSignal(s)
    ensures r.0.conf == s.conf
    ensures state == AGoBStop ==> r.0.a1 == (if s.conf.h2Arms then ArmGo else s.a1)
    ensures state != AGoBStop ==> r == SetState(state, s)
  {
    SetStateWith(state, s, s.conf.h2Arms)
  }

  /**
   * `set_state` asking each head's own flag: a head whose arms are enabled
   * ends at go in its go state and at stop otherwise; a head whose arms are
   * disabled keeps them where they were; the configuration is untouched.
   */
  function SetState(state: ManualState, s: Signal): (r: (Signal, seq<HwEvent>))
    requires ValidSignal(s)
    ensures r.0.conf == s.conf
    ensures s.conf.h1Arms ==> r.0.a1 == (if state == AGoBStop then ArmGo else ArmStop)
    ensures s.conf.h2Arms ==> r.0.a2 == (if state == AStopBGo then ArmGo else ArmStop)
    ensures !s.conf.h1Arms ==> r.0.a1 == s.a1
    ensures !s.conf.h2Arms ==> r.0.a2 == s.a2
  {
    SetStateWith(state, s, s.conf.h1Arms)
  }

  /** An event that works a head's arms: a write to its motor, direction or fold relay. */
  predicate MovesArms(e: HwEvent, m: HeadMap) {
    e.Write? && (e.relay == m.motor || e.relay == m.direction || e.relay == m.fold)
  }

  /** Stopping or clearing a head writes only that head's relays. */
  lemma HeadEventsWithin(m: HeadMap, arms: ArmState, enabled: bool, t: nat)
    requires t < Text.TWO_32
    ensures forall e | e in StopEvents(m, arms, AsConf, enabled, t) :: e.Write? ==> e.relay in Parts(m)
    ensures forall e | e in GoEvents(m, arms, AsConf, enabled, t) :: e.Write? ==> e.relay in Parts(m)
  {
  }

  /** With its arms disabled a head only switches its lights. */
  lemma DisabledHeadStill(m: HeadMap, arms: ArmState, t: nat)
    requires t < Text.TWO_32 && (m == H1Map || m == H2Map)
    ensures forall e | e in StopEvents(m, arms, AsConf, false, t) :: !MovesArms(e, m)
    ensures forall e | e in GoEvents(m, arms, AsConf, false, t) :: !MovesArms(e, m)
  {
  }

  /** Ringing and flashing works no arms. */
  lemma DingFlashStill()
    ensures forall e | e in DingFlash() :: !MovesArms(e, H1Map) && !MovesArms(e, H2Map)
  {
  }

  /** A write to one head's relays works none of the other head's arms. */
  lemma OtherHeadStill()
    ensures forall r | r in Parts(H2Map) :: r != H1Map.motor && r != H1Map.direction && r != H1Map.fold
    ensures forall r | r in Parts(H1Map) :: r != H2Map.motor && r != H2Map.direction && r != H2Map.fold
  {
  }

  /**
   * A head whose arms are disabled keeps them still in every state: no write
   * touches its motor, direction or fold relay, and its arm position stays.
   */
  lemma DisabledArmsStayStill(state: ManualState, s: Signal)
    requires ValidSignal(s)
    ensures !s.conf.h1Arms ==> SetState(state, s).0.a1 == s.a1 && forall e | e in SetState(state, s).1 :: !MovesArms(e, H1Map)
    ensures !s.conf.h2Arms ==> SetState(state, s).0.a2 == s.a2 && forall e | e in SetState(state, s).1 :: !MovesArms(e, H2Map)
  {
    var t := s.conf.armTime;
    DingFlashStill();
    OtherHeadStill();
    HeadEventsWithin(H1Map, s.a1, s.conf.h1Arms, t);
    HeadEventsWithin(H2Map, s.a2, s.conf.h2Arms, t);
    DisabledHeadStill(H1Map, s.a1, t);
    DisabledHeadStill(H2Map, s.a2, t);
    match state
    case AGoBStop => assert SetState(state, s) == AlpineGo(s, s.conf.h1Arms);
    case AStopBGo => assert SetState(state, s) == BroadwayGo(s);
    case _ => assert SetState(state, s) == BothStop(s);
  }

  /**
   * As written, with the Alpine arms disabled and the Broadway arms enabled,
   * Alpine go still drives the Alpine arm motor.
   */
  lemma AlpineGoMovesDisabledArms(s: Signal)
    requires ValidSignal(s) && !s.conf.h1Arms && s.conf.h2Arms && s.a1 != ArmGo
    ensures Write(H1MotorPower, RelayOn) in SetStateAsWritten(AGoBStop, s).1
    ensures SetStateAsWritten(AGoBStop, s).0.a1 == ArmGo
  {
    var e := GoEvents(H1Map, s.a1, AsConf, true, s.conf.armTime);
    assert e[3] == Write(H1MotorPower, RelayOn);
  }

  /** The signal as the heads and the configuration store hold it. */
  function SignalOf(h1: Head, h2: Head, conf: AcmeConf.ConfigStore): Signal
    reads h1, h2, conf
  {
    Signal(h1.arms, h2.arms, conf.Current())
  }

  /** The two heads on one board, and the configuration, as `acme` sets them up. */
  predicate Wired(h1: Head, h2: Head, conf: AcmeConf.ConfigStore, board: Board)
    reads h1, h2, conf
  {
    h1 != h2 && h1.board == board && h2.board == board && h1.parts == H1Map && h2.parts == H2Map &&
    conf.armTime < Text.TWO_32
  }

  /** `set_state`, with each head's own arms flag. */
  method SetSignal(state: ManualState, h1: Head, h2: Head, conf: AcmeConf.ConfigStore, board: Board)
    requires Wired(h1, h2, conf, board)
    modifies h1, h2, board
    ensures SignalOf(h1, h2, conf) == SetState(state, old(SignalOf(h1, h2, conf))).0
    ensures board.log == old(board.log) + SetState(state, old(SignalOf(h1, h2, conf))).1
  {
    match state {
      case AGoBStop =>
        ShowAlpineGo(h1, h2, conf, board);
      case AStopBGo =>
        ShowBroadwayGo(h1, h2, conf, board);
      case _ =>
        ShowBothStop(h1, h2, conf, board);
    }
  }

  /** Alpine go: ring first if Broadway was at go, stop Broadway, Alpine to go, ring. */
  method ShowAlpineGo(h1: Head, h2: Head, conf: AcmeConf.ConfigStore, board: Board)
    requires Wired(h1, h2, conf, board)
    modifies h1, h2, board
    ensures SignalOf(h1, h2, conf) == AlpineGo(old(SignalOf(h1, h2, conf)), conf.h1Arms).0
    ensures board.log == old(board.log) + AlpineGo(old(SignalOf(h1, h2, conf)), conf.h1Arms).1
  {
    ghost var sig, log0 := SignalOf(h1, h2, conf), board.log;
    var h1Arms, h2Arms, t := conf.h1Arms, conf.h2Arms, conf.armTime;
    ghost var ring := if sig.a2 == ArmGo then DingFlash() else [];
    ghost var stop := StopEvents(H2Map, sig.a2, AsConf, h2Arms, t);
    ghost var go := GoEvents(H1Map, sig.a1, AsConf, h1Arms, t);
    if h2.IsGo() {
      DingAndFlashBoth(board);
    }
    assert board.log == log0 + ring;
    h2.Stop(AsConf, h2Arms, t);
    h1.Go(AsConf, h1Arms, t);
    DingAndFlashBoth(board);
    assert board.log == log0 + ring + stop + go + DingFlash();
    Text.AppendAssoc(log0 + ring + stop, go, DingFlash());
    Text.AppendAssoc(log0 + ring, stop, go + DingFlash());
    Text.AppendAssoc(log0, ring, stop + (go + DingFlash()));
  }

  /** Broadway go: ring first if Alpine was at go, stop Alpine, Broadway to go. */
  method ShowBroadwayGo(h1: Head, h2: Head, conf: AcmeConf.ConfigStore, board: Board)
    requires Wired(h1, h2, conf, board)
    modifies h1, h2, board
    ensures SignalOf(h1, h2, conf) == BroadwayGo(old(SignalOf(h1, h2, conf))).0
    ensures board.log == old(board.log) + BroadwayGo(old(SignalOf(h1, h2, conf))).1
  {
    ghost var sig, log0 := SignalOf(h1, h2, conf), board.log;
    var h1Arms, h2Arms, t := conf.h1Arms, conf.h2Arms, conf.armTime;
    ghost var ring := if sig.a1 == ArmGo then DingFlash() else [];
    ghost var stop := StopEvents(H1Map, sig.a1, AsConf, h1Arms, t);
    ghost var go := GoEvents(H2Map, sig.a2, AsConf, h2Arms, t);
    if h1.IsGo() {
      DingAndFlashBoth(board);
    }
    assert board.log == log0 + ring;
    h1.Stop(AsConf, h1Arms, t);
    h2.Go(AsConf, h2Arms, t);
    assert board.log == log0 + ring + stop + go;
    Text.AppendAssoc(log0, ring, stop + go);
    Text.AppendAssoc(log0 + ring, stop, go);
  }

  /** Both stop: ring first if either was at go, then stop both. */
  method ShowBothStop(h1: Head, h2: Head, conf: AcmeConf.ConfigStore, board: Board)
    requires Wired(h1, h2, conf, board)
    modifies h1, h2, board
    ensures SignalOf(h1, h2, conf) == BothStop(old(SignalOf(h1, h2, conf))).0
    ensures board.log == old(board.log) + BothStop(old(SignalOf(h1, h2, conf))).1
  {
    ghost var sig, log0 := SignalOf(h1, h2, conf), board.log;
    var h1Arms, h2Arms, t := conf.h1Arms, conf.h2Arms, conf.armTime;
    ghost var ring := if sig.a1 == ArmGo || sig.a2 == ArmGo then DingFlash() else [];
    ghost var stop1 := StopEvents(H1Map, sig.a1, AsConf, h1Arms, t);
    ghost var stop2 := StopEvents(H2Map, sig.a2, AsConf, h2Arms, t);
    if h1.IsGo() || h2.IsGo() {
      DingAndFlashBoth(board);
    }
    assert board.log == log0 + ring;
    h1.Stop(AsConf, h1Arms, t);
    h2.Stop(AsConf, h2Arms, t);
    assert board.log == log0 + ring + stop1 + stop2;
    Text.AppendAssoc(log0, ring, stop1 + stop2);
    Text.AppendAssoc(log0 + ring, stop1, stop2);
  }

  /** An arms key: fold first if it says so, then store the flag. */
  method ArmsAction(cmd: ArmsCommand, h1: Head, h2: Head, conf: AcmeConf.ConfigStore, board: Board)
    requires Wired(h1, h2, conf, board)
    modifies h1, h2, conf, board
    ensures SignalOf(h1, h2, conf) == ArmsStep(old(SignalOf(h1, h2, conf)), cmd).0
    ensures board.log == old(board.log) + ArmsStep(old(SignalOf(h1, h2, conf)), cmd).1
    ensures conf.file == AcmeConf.Serialise(conf.Current())
  {
    match cmd.fold {
      case None =>
      case Some(Alpine) => h1.FoldArms(conf.armTime);
      case Some(Broadway) => h2.FoldArms(conf.armTime);
    }
    if cmd.head == Alpine {
      conf.SetH1Arms(cmd.enable);
    } else {
      conf.SetH2Arms(cmd.enable);
    }
  }

  /** One round of 'p'. */
  method DingFlashPause(board: Board)
    modifies board
    ensures board.log == old(board.log) + PauseRound()
  {
    DingAndFlashBoth(board);
    board.USleep(RoundPause);
    Text.AppendAssoc(old(board.log), DingEvents(), FlashEvents(15));
    Text.AppendAssoc(old(board.log), DingFlash(), [USleep(RoundPause)]);
  }

  /** One key `do_cmd` handles. */
  method HandleKey(c: char, h1: Head, h2: Head, conf: AcmeConf.ConfigStore, board: Board)
    requires Wired(h1, h2, conf, board) && Handled(c)
    modifies h1, h2, conf, board
    ensures SignalOf(h1, h2, conf) == KeyStep(old(SignalOf(h1, h2, conf)), c).0
    ensures board.log == old(board.log) + KeyStep(old(SignalOf(h1, h2, conf)), c).1
    ensures if ArmsKey(c).Some? then Saved(conf) else unchanged(conf)
  {
    if c == 'o' {
      DingAndFlashBoth(board);
    } else if c == 'p' {
      ghost var log0 := board.log;
      DingFlashPause(board);
      DingFlashPause(board);
      DingFlashPause(board);
      Text.AppendAssoc(log0 + PauseRound(), PauseRound(), PauseRound());
      Text.AppendAssoc(log0, PauseRound(), PauseRound() + PauseRound());
      Text.AppendAssoc(log0, PauseRound() + PauseRound(), PauseRound());
    } else {
      ArmsAction(ArmsKey(c).value, h1, h2, conf, board);
    }
  }

  /** What came before a run of `do_cmd`'s loop, put in front of the run. */
  function Then(events: seq<HwEvent>, saved: bool, r: CmdRun): (t: CmdRun)
    ensures t.signal == r.signal && t.result == r.result && t.rest == r.rest
    ensures t.events == events + r.events && (t.saved <==> saved || r.saved)
  {
    CmdRun(r.signal, events + r.events, r.rest, r.result, saved || r.saved)
  }

  lemma ThenThen(a: seq<HwEvent>, s: bool, b: seq<HwEvent>, t: bool, r: CmdRun)
    ensures Then(a, s, Then(b, t, r)) == Then(a + b, s || t, r)
  {
    Text.AppendAssoc(a, b, r.events);
  }

  /** The configuration file holds the configuration. */
  predicate Saved(conf: AcmeConf.ConfigStore)
    reads conf
  {
    conf.file == AcmeConf.Serialise(conf.Current())
  }

  /**
   * One turn of `do_cmd`'s loop: read a key, and handle it or say it ends
   * the command. `events` are what it did to the board.
   */
  method DoCmdRound(term: Terminal, h1: Head, h2: Head, conf: AcmeConf.ConfigStore, board: Board)
    returns (c: char, ghost events: seq<HwEvent>)
    requires Wired(h1, h2, conf, board) && term.keys != []
    modifies term`keys, h1, h2, conf, board
    ensures Wired(h1, h2, conf, board)
    ensures c == AcmeConf.ToLower(GetChar(old(term.keys)[0])) && term.keys == old(term.keys)[1..]
    ensures board.log == old(board.log) + events
    ensures var r := DoCmdRun(old(SignalOf(h1, h2, conf)), old(term.keys));
      if Handled(c) then r == Then(events, ArmsKey(c).Some?, DoCmdRun(SignalOf(h1, h2, conf), term.keys))
      else r == CmdRun(SignalOf(h1, h2, conf), [], term.keys, Some(c), false) && events == []
    ensures if Handled(c) && ArmsKey(c).Some? then Saved(conf) else unchanged(conf)
  {
    ghost var s0 := SignalOf(h1, h2, conf);
    var ch := term.GetKey();
    c := AcmeConf.ToLower(ch);
    events := [];
    if Handled(c) {
      events := KeyStep(s0, c).1;
      HandleKey(c, h1, h2, conf, board);
    }
  }

  /**
   * `do_cmd`, returning the key that ends it as evidently intended. `waiting`
   * is true when the keys ran out before such a key.
   */
  method DoCmd(term: Terminal, h1: Head, h2: Head, conf: AcmeConf.ConfigStore, board: Board)
    returns (cmd: char, waiting: bool)
    requires Wired(h1, h2, conf, board)
    modifies term`keys, h1, h2, conf, board
    ensures Wired(h1, h2, conf, board)
    ensures var r := DoCmdRun(old(SignalOf(h1, h2, conf)), old(term.keys));
      SignalOf(h1, h2, conf) == r.signal && board.log == old(board.log) + r.events && term.keys == r.rest &&
      (waiting <==> r.result.None?) && (r.result.Some? ==> cmd == DoCmdReturn(r.result.value)) &&
      if r.saved then Saved(conf) else unchanged(conf)
  {
    ghost var log0 := board.log;
    ghost var total := DoCmdRun(SignalOf(h1, h2, conf), term.keys);
    ghost var done: seq<HwEvent> := [];
    ghost var saved := false;
    while term.keys != []
      invariant Wired(h1, h2, conf, board)
      invariant board.log == log0 + done
      invariant saved ==> Saved(conf)
      invariant !saved ==> unchanged(conf)
      invariant total == Then(done, saved, DoCmdRun(SignalOf(h1, h2, conf), term.keys))
      decreases |term.keys|
    {
      var c, events := DoCmdRound(term, h1, h2, conf, board);
      if !Handled(c) {
        return DoCmdReturn(c), false;
      }
      ThenThen(done, saved, events, ArmsKey(c).Some?, DoCmdRun(SignalOf(h1, h2, conf), term.keys));
      Text.AppendAssoc(log0, done, events);
      done, saved := done + events, saved || ArmsKey(c).Some?;
    }
    assert done + [] == done;
    return 0 as char, true;
  }

  /**
   * What `manual`'s loop does with the keys typed: where the signal ends, the
   * events, the keys it leaves, the states it shows, what `do_cmd` returns
   * each time, whether it left, and whether the configuration file was
   * rewritten.
   */
  datatype ManualRun = ManualRun(signal: Signal, events: seq<HwEvent>, rest: seq<Key>,
                                 shown: seq<ManualState>, returned: string, left: bool, saved: bool)

  /**
   * `manual`'s loop from state `cur` with the intended `do_cmd`: each call's
   * key picks the state to show, the state is shown, and the loop moves on to
   * the next state, until 'x' (or until `do_cmd` waits for more keys).
   */
  function ManualFrom(s: Signal, cur: ManualState, keys: seq<Key>): (r: ManualRun)
    requires ValidSignal(s)
    ensures ValidSignal(r.signal) && |r.rest| <= |keys| && |r.shown| == |r.returned|
    ensures r.signal.conf.armTime == s.conf.armTime
    decreases |keys|
  {
    var d := DoCmdRun(s, keys);
    if d.result.None? then ManualRun(d.signal, d.events, d.rest, [], [], false, d.saved)
    else
      var c := DoCmdReturn(d.result.value);
      var st := Pick(c, cur);
      var shownAs := SetState(st, d.signal);
      if c == 'x' then ManualRun(shownAs.0, d.events + shownAs.1, d.rest, [st], [c], true, d.saved)
      else Shown(d.events + shownAs.1, d.saved, st, c, ManualFrom(shownAs.0, NextState(st), d.rest))
  }

  /** One round of `manual`'s loop, put in front of the rounds after it. */
  function Shown(events: seq<HwEvent>, saved: bool, st: ManualState, c: char, r: ManualRun): (t: ManualRun)
    ensures t.signal == r.signal && t.left == r.left && t.rest == r.rest
    ensures t.events == events + r.events && t.shown == [st] + r.shown && t.returned == [c] + r.returned
    ensures t.saved <==> saved || r.saved
  {
    ManualRun(r.signal, events + r.events, r.rest, [st] + r.shown, [c] + r.returned, r.left, saved || r.saved)
  }

  /** Rounds done so far, put in front of the rounds still to come. */
  function Done(events: seq<HwEvent>, saved: bool, shown: seq<ManualState>, returned: string, r: ManualRun): (t: ManualRun)
    ensures t.signal == r.signal && t.left == r.left && t.rest == r.rest
    ensures t.events == events + r.events && t.shown == shown + r.shown && t.returned == returned + r.returned
    ensures t.saved <==> saved || r.saved
  {
    ManualRun(r.signal, events + r.events, r.rest, shown + r.shown, returned + r.returned, r.left, saved || r.saved)
  }

  lemma DoneShown(events: seq<HwEvent>, saved: bool, shown: seq<ManualState>, returned: string,
                  e: seq<HwEvent>, sv: bool, st: ManualState, c: char, r: ManualRun)
    ensures Done(events, saved, shown, returned, Shown(e, sv, st, c, r)) ==
      Done(events + e, saved || sv, shown + [st], returned + [c], r)
  {
    Text.AppendAssoc(events, e, r.events);
    Text.AppendAssoc(shown, [st], r.shown);
    Text.AppendAssoc(returned, [c], r.returned);
  }

  /**
   * The states `manual` shows are the ones `ManualShown` gives for the keys
   * `do_cmd` returns, and it leaves exactly when `ManualShown` says.
   */
  lemma {:induction false} ManualFromShows(s: Signal, cur: ManualState, keys: seq<Key>)
    requires ValidSignal(s)
    ensures var r := ManualFrom(s, cur, keys);
      (r.shown, r.left) == ManualShown(cur, r.returned)
    decreases |keys|
  {
    var d := DoCmdRun(s, keys);
    if d.result.Some? && DoCmdReturn(d.result.value) != 'x' {
      var c := DoCmdReturn(d.result.value);
      var st := Pick(c, cur);
      var shownAs := SetState(st, d.signal);
      ManualFromShows(shownAs.0, NextState(st), d.rest);
      var rest := ManualFrom(shownAs.0, NextState(st), d.rest);
      assert ([c] + rest.returned)[1..] == rest.returned;
    }
  }

  /**
   * One round of `manual`'s loop: `do_cmd`, and unless it is still waiting,
   * the state its key picks is shown.
   */
  method ManualRound(cur: ManualState, term: Terminal, h1: Head, h2: Head, conf: AcmeConf.ConfigStore, board: Board)
    returns (c: char, waiting: bool, st: ManualState, ghost events: seq<HwEvent>, ghost saved: bool)
    requires Wired(h1, h2, conf, board)
    modifies term`keys, h1, h2, conf, board
    ensures Wired(h1, h2, conf, board)
    ensures !waiting ==> |term.keys| < |old(term.keys)|
    ensures board.log == old(board.log) + events
    ensures saved ==> Saved(conf)
    ensures !saved ==> unchanged(conf)
    ensures var r := ManualFrom(old(SignalOf(h1, h2, conf)), cur, old(term.keys));
      if waiting then r == ManualRun(SignalOf(h1, h2, conf), events, term.keys, [], [], false, saved)
      else if c == 'x' then r == ManualRun(SignalOf(h1, h2, conf), events, term.keys, [st], [c], true, saved)
      else r == Shown(events, saved, st, c, ManualFrom(SignalOf(h1, h2, conf), NextState(st), term.keys))
  {
    ghost var log0, s0 := board.log, SignalOf(h1, h2, conf);
    ghost var d := DoCmdRun(s0, term.keys);
    var cmd;
    cmd, waiting := DoCmd(term, h1, h2, conf, board);
    saved, events := d.saved, d.events;
    st := cur;
    if waiting {
      return 0 as char, true, cur, events, saved;
    }
    c := cmd;
    st := Pick(c, cur);
    ghost var s1 := SignalOf(h1, h2, conf);
    SetSignal(st, h1, h2, conf, board);
    events := d.events + SetState(st, s1).1;
    Text.AppendAssoc(log0, d.events, SetState(st, s1).1);
  }

  /**
   * Leaving `manual`: fold the Alpine arms, then the Broadway arms, then
   * reset the board; arms folded already add nothing.
   */
  function LeaveEvents(s: Signal): (e: seq<HwEvent>)
    requires ValidSignal(s)
    ensures |e| == (if s.a1 == ArmNone then 0 else 7) + (if s.a2 == ArmNone then 0 else 7) + 1
    ensures e[|e| - 1] == ResetAll
    ensures s.a1 != ArmNone ==> e[0] == Write(H1Fold, RelayOn)
    ensures s.a1 == ArmNone && s.a2 != ArmNone ==> e[0] == Write(H2Fold, RelayOn)
  {
    FoldEvents(H1Map, s.a1, s.conf.armTime) + FoldEvents(H2Map, s.a2, s.conf.armTime) + [ResetAll]
  }

  /** What `manual` does after its loop. */
  method Leave(h1: Head, h2: Head, conf: AcmeConf.ConfigStore, board: Board)
    requires Wired(h1, h2, conf, board)
    modifies h1, h2, board
    ensures SignalOf(h1, h2, conf) == old(SignalOf(h1, h2, conf)).(a1 := ArmNone, a2 := ArmNone)
    ensures board.log == old(board.log) + LeaveEvents(old(SignalOf(h1, h2, conf)))
  {
    var t := conf.armTime;
    h1.FoldArms(t);
    h2.FoldArms(t);
    board.Reset();
  }

  /** `manual`'s loop from state `cur`, as `ManualFrom` says; it returns at 'x' or when the keys run out. */
  method ManualLoop(cur: ManualState, term: Terminal, h1: Head, h2: Head, conf: AcmeConf.ConfigStore, board: Board)
    returns (shown: seq<ManualState>, left: bool)
    requires Wired(h1, h2, conf, board)
    modifies term`keys, h1, h2, conf, board
    ensures Wired(h1, h2, conf, board)
    ensures var r := ManualFrom(old(SignalOf(h1, h2, conf)), cur, old(term.keys));
      shown == r.shown && left == r.left && term.keys == r.rest &&
      SignalOf(h1, h2, conf) == r.signal && board.log == old(board.log) + r.events &&
      if r.saved then Saved(conf) else unchanged(conf)
  {
    ghost var log0 := board.log;
    ghost var total := ManualFrom(SignalOf(h1, h2, conf), cur, term.keys);
    var next := cur;
    shown := [];
    ghost var done: seq<HwEvent>, returned: string, saved := [], [], false;
    while true
      invariant Wired(h1, h2, conf, board)
      invariant board.log == log0 + done
      invariant saved ==> Saved(conf)
      invariant !saved ==> unchanged(conf)
      invariant total == Done(done, saved, shown, returned, ManualFrom(SignalOf(h1, h2, conf), next, term.keys))
      decreases |term.keys|
    {
      var c, waiting, st, events, sv := ManualRound(next, term, h1, h2, conf, board);
      Text.AppendAssoc(log0, done, events);
      if waiting {
        assert shown + [] == shown && returned + [] == returned;
        return shown, false;
      }
      if c == 'x' {
        return shown + [st], true;
      }
      DoneShown(done, saved, shown, returned, events, sv, st, c, ManualFrom(SignalOf(h1, h2, conf), NextState(st), term.keys));
      done, saved, returned := done + events, saved || sv, returned + [c];
      shown, next := shown + [st], NextState(st);
    }
  }

  /**
   * `manual` with the intended `do_cmd`: show both stop, then one state per
   * `do_cmd` call as `ManualFrom` says; on 'x' fold both heads' arms and
   * reset the board. `left` is false when the keys ran out first.
   */
  method Manual(term: Terminal, h1: Head, h2: Head, conf: AcmeConf.ConfigStore, board: Board)
    returns (shown: seq<ManualState>, left: bool)
    requires Wired(h1, h2, conf, board)
    modifies term`keys, h1, h2, conf, board
    ensures var init := SetState(AStopBStop, old(SignalOf(h1, h2, conf)));
      var r := ManualFrom(init.0, AStopBStop, old(term.keys));
      shown == [AStopBStop] + r.shown && left == r.left && term.keys == r.rest &&
      (if r.saved then Saved(conf) else unchanged(conf)) &&
      if left then
        SignalOf(h1, h2, conf) == r.signal.(a1 := ArmNone, a2 := ArmNone) &&
        board.log == old(board.log) + init.1 + r.events + LeaveEvents(r.signal)
      else SignalOf(h1, h2, conf) == r.signal && board.log == old(board.log) + init.1 + r.events
  {
    SetSignal(AStopBStop, h1, h2, conf, board);
    var rest;
    rest, left := ManualLoop(AStopBStop, term, h1, h2, conf, board);
    shown := [AStopBStop] + rest;
    if left {
      Leave(h1, h2, conf, board);
    }
  }
}
