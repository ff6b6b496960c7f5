/**
 * The hardware layer of the ACME signal: two signal heads, each with red,
 * green and yellow lights, a bell, and arms moved by a motor whose direction
 * relay picks raise or lower and whose fold relay folds them away.
 *
 * A head remembers where its arms are (none, stop, go) and moves them only
 * when they are not there already. Each relay write and each pause goes to the
 * board's event log; what a relay write sends over the serial line is the
 * business of the relay link, so here a write is only the relay and its new state.
 */
module AcmeHw {
  import opened RelayNames
  import opened Wrappers
  import Text

  /** Which relay drives each part of a head. */
  datatype HeadMap = HeadMap(
    red: AcmeRelay, green: AcmeRelay, yellow: AcmeRelay,
    direction: AcmeRelay, motor: AcmeRelay, fold: AcmeRelay,
    bell: AcmeRelay)

  /** The Alpine head. */
  const H1Map := HeadMap(H1Red, H1Green, H1Yellow, H1MotorDir, H1MotorPower, H1Fold, H1Bell)

  /** The Broadway head. */
  const H2Map := HeadMap(H2Red, H2Green, H2Yellow, H2MotorDir, H2MotorPower, H2Fold, H2Bell)

  /** The seven relays of a head, in field order. */
  function Parts(m: HeadMap): seq<AcmeRelay> {
    [m.red, m.green, m.yellow, m.direction, m.motor, m.fold, m.bell]
  }

  /** The seven parts of a head are seven different relays. */
  predicate Distinct(m: HeadMap) {
    forall i, j | 0 <= i < j < 7 :: Parts(m)[i] != Parts(m)[j]
  }

  /**
   * Each head's map binds every part to the relay of the same name on that
   * head: the Alpine head uses relays 0 to 6, the Broadway head 9 to 15, so no
   * relay serves both heads and within a head no two parts share a relay.
   */
  lemma HeadMaps()
    ensures Distinct(H1Map) && Distinct(H2Map)
    ensures forall r | r in Parts(H1Map) :: AcmeIndex(r) <= 6
    ensures forall r | r in Parts(H2Map) :: 9 <= AcmeIndex(r)
    ensures forall r | r in Parts(H1Map) :: r !in Parts(H2Map)
  {
  }

  datatype ArmState = ArmNone | ArmStop | ArmGo

  /** How a head shows stop or go: by its arms, its lights, both, or as configured. */
  datatype SignalHow = ArmsOnly | LightsOnly | ArmsAndLights | AsConf

  /**
   * What the hardware layer does: a relay write, a `sleep_10` of so many
   * tenths of a second (an `unsigned int`), a `usleep` of so many
   * microseconds, or a `relay_reset` that turns every relay off.
   */
  datatype HwEvent =
    | Write(relay: AcmeRelay, state: RelayState)
    | Sleep10(tenths: nat)
    | USleep(micros: nat)
    | ResetAll

  /** The event decides the state of relay `r`. */
  predicate Sets(e: HwEvent, r: AcmeRelay) {
    (e.Write? && e.relay == r) || e.ResetAll?
  }

  /** Conversion of a `uint32_t` to a 32-bit `int`. */
  function ToInt32(v: nat): (r: int)
    requires v < Text.TWO_32
    ensures -0x8000_0000 <= r < 0x8000_0000
    ensures r % Text.TWO_32 == v
  {
    if v < 0x8000_0000 then v else v - Text.TWO_32
  }

  /** Conversion of an `int` back to the `unsigned int` that `sleep_10` takes. */
  function ToUnsigned(v: int): (r: nat)
    ensures r < Text.TWO_32 && r % Text.TWO_32 == v % Text.TWO_32
  {
    v % Text.TWO_32
  }

  /** The pause of an arm move: the given time, or the configured arm time when none is given (negative). */
  function MovePause(armTime: nat, sleepTime: int): (t: nat)
    requires armTime < Text.TWO_32
    ensures t < Text.TWO_32
    ensures sleepTime < 0 ==> t == armTime
    ensures 0 <= sleepTime < Text.TWO_32 ==> t == sleepTime
  {
    if sleepTime < 0 then ToUnsigned(ToInt32(armTime)) else ToUnsigned(sleepTime)
  }

  /**
   * The pause `fold_arms` asks for: twice the arm time, computed in `uint32_t`
   * and stored in an `int`, so it is the 32-bit signed value congruent to
   * twice the arm time.
   */
  function FoldPause(armTime: nat): (t: int)
    requires armTime < Text.TWO_32
    ensures -0x8000_0000 <= t < 0x8000_0000
    ensures t % Text.TWO_32 == (2 * armTime) % Text.TWO_32
  {
    ToInt32((armTime * 2) % Text.TWO_32)
  }

  /** Folding moves the arms for twice the arm time, as long as that doubled time fits in an `int`. */
  lemma FoldPauseDoubles(armTime: nat)
    requires armTime < 0x4000_0000
    ensures MovePause(armTime, FoldPause(armTime)) == 2 * armTime
  {
  }

  /**
   * An arm time from 2^30 up to 2^31 overflows the doubled `int` into a
   * negative value, and folding then moves for the plain arm time.
   */
  lemma FoldPauseOverflows(armTime: nat)
    requires 0x4000_0000 <= armTime < 0x8000_0000
    ensures FoldPause(armTime) < 0
    ensures MovePause(armTime, FoldPause(armTime)) == armTime
  {
  }

  /**
   * `stop_arms`: nothing if the arms show stop; else pause, direction off,
   * motor on, pause, motor off. It does something exactly when the arms are
   * not at stop, and it then pauses for the arm time and leaves the motor off.
   */
  function StopArmsEvents(m: HeadMap, arms: ArmState, armTime: nat, sleepTime: int): (e: seq<HwEvent>)
    requires armTime < Text.TWO_32
    ensures e == [] <==> arms == ArmStop
    ensures e != [] ==> e[0] == Sleep10(armTime) && e[|e| - 1] == Write(m.motor, RelayOff)
  {
    if arms == ArmStop then []
    else [Sleep10(armTime), Write(m.direction, RelayOff), Write(m.motor, RelayOn),
          Sleep10(MovePause(armTime, sleepTime)), Write(m.motor, RelayOff)]
  }

  /**
   * `go_arms`: nothing if the arms show go; else direction on, motor on,
   * pause, motor off, direction off. It does something exactly when the arms
   * are not at go, and it then starts by setting the direction to raise and
   * ends with the direction relay off again.
   */
  function GoArmsEvents(m: HeadMap, arms: ArmState, armTime: nat, sleepTime: int): (e: seq<HwEvent>)
    requires armTime < Text.TWO_32
    ensures e == [] <==> arms == ArmGo
    ensures e != [] ==> e[0] == Write(m.direction, RelayOn) && e[|e| - 1] == Write(m.direction, RelayOff)
  {
    if arms == ArmGo then []
    else [Write(m.direction, RelayOn), Write(m.motor, RelayOn),
          Sleep10(MovePause(armTime, sleepTime)), Write(m.motor, RelayOff), Write(m.direction, RelayOff)]
  }

  /**
   * `fold_arms`: from stop the arms are raised, from go lowered, each time
   * with the fold relay on. Folded arms are left alone; otherwise the fold
   * relay is switched on first and off last, around one arm move.
   */
  function FoldEvents(m: HeadMap, arms: ArmState, armTime: nat): (e: seq<HwEvent>)
    requires armTime < Text.TWO_32
    ensures e == [] <==> arms == ArmNone
    ensures e != [] ==> |e| == 7 && e[0] == Write(m.fold, RelayOn) && e[6] == Write(m.fold, RelayOff)
  {
    match arms
    case ArmNone => []
    case ArmStop => [Write(m.fold, RelayOn)] + GoArmsEvents(m, ArmStop, armTime, FoldPause(armTime)) + [Write(m.fold, RelayOff)]
    case ArmGo => [Write(m.fold, RelayOn)] + StopArmsEvents(m, ArmGo, armTime, FoldPause(armTime)) + [Write(m.fold, RelayOff)]
  }

  /** `AS_CONF` becomes arms and lights when the head's arms are enabled, lights only when not. */
  function Resolve(how: SignalHow, enabled: bool): (r: SignalHow)
    ensures r != AsConf
    ensures how != AsConf ==> r == how
  {
    if how != AsConf then how else if enabled then ArmsAndLights else LightsOnly
  }

  /**
   * `stop`: green off and red on unless arms only, then the arms to stop
   * unless lights only. The lights, when shown, change first, green off
   * before red on; the arms, when moved and not at stop already, come last
   * and leave the motor off.
   */
  function StopEvents(m: HeadMap, arms: ArmState, how: SignalHow, enabled: bool, armTime: nat): (e: seq<HwEvent>)
    requires armTime < Text.TWO_32
    ensures Resolve(how, enabled) != ArmsOnly ==> |e| >= 2 && e[..2] == [Write(m.green, RelayOff), Write(m.red, RelayOn)]
    ensures Resolve(how, enabled) != LightsOnly && arms != ArmStop ==> e != [] && e[|e| - 1] == Write(m.motor, RelayOff)
    ensures Resolve(how, enabled) == LightsOnly || arms == ArmStop ==> |e| <= 2
  {
    var h := Resolve(how, enabled);
    (if h == ArmsOnly then [] else [Write(m.green, RelayOff), Write(m.red, RelayOn)])
    + (if h == LightsOnly then [] else StopArmsEvents(m, arms, armTime, -1))
  }

  /**
   * `go`: red off and green on unless arms only, then the arms to go unless
   * lights only. The lights, when shown, change first, red off before green
   * on; the arms, when moved and not at go already, come last and leave the
   * direction relay off.
   */
  function GoEvents(m: HeadMap, arms: ArmState, how: SignalHow, enabled: bool, armTime: nat): (e: seq<HwEvent>)
    requires armTime < Text.TWO_32
    ensures Resolve(how, enabled) != ArmsOnly ==> |e| >= 2 && e[..2] == [Write(m.red, RelayOff), Write(m.green, RelayOn)]
    ensures Resolve(how, enabled) != LightsOnly && arms != ArmGo ==> e != [] && e[|e| - 1] == Write(m.direction, RelayOff)
    ensures Resolve(how, enabled) == LightsOnly || arms == ArmGo ==> |e| <= 2
  {
    var h := Resolve(how, enabled);
    (if h == ArmsOnly then [] else [Write(m.red, RelayOff), Write(m.green, RelayOn)])
    + (if h == LightsOnly then [] else GoArmsEvents(m, arms, armTime, -1))
  }

  /** Where the arms are after `stop` or `go` with this `how`. */
  function ArmsAfter(arms: ArmState, how: SignalHow, enabled: bool, target: ArmState): ArmState {
    if Resolve(how, enabled) == LightsOnly then arms else target
  }

  function BellEvents(m: HeadMap): seq<HwEvent> {
    [Write(m.bell, RelayOn), Sleep10(100), Write(m.bell, RelayOff)]
  }

  /** `ding_both`: both bells on together for 750 microseconds, and both off at the end. */
  function DingEvents(): (e: seq<HwEvent>)
    ensures USleep(750) in e
    ensures |e| >= 2 && e[|e| - 2..] == [Write(H1Bell, RelayOff), Write(H2Bell, RelayOff)]
  {
    [Write(H1Map.bell, RelayOn), Write(H2Map.bell, RelayOn), USleep(750),
     Write(H1Map.bell, RelayOff), Write(H2Map.bell, RelayOff)]
  }

  /** Both yellow lights on together for `tenths`, and both off at the end. */
  function FlashEvents(tenths: nat): (e: seq<HwEvent>)
    ensures Sleep10(tenths) in e
    ensures |e| >= 2 && e[|e| - 2..] == [Write(H1Yellow, RelayOff), Write(H2Yellow, RelayOff)]
  {
    [Write(H1Map.yellow, RelayOn), Write(H2Map.yellow, RelayOn), Sleep10(tenths),
     Write(H1Map.yellow, RelayOff), Write(H2Map.yellow, RelayOff)]
  }

  /** The relay writes among the events, in order. */
  function Writes(events: seq<HwEvent>): seq<(AcmeRelay, RelayState)> {
    if events == [] then []
    else (if events[0].Write? then [(events[0].relay, events[0].state)] else []) + Writes(events[1..])
  }

  /** The state the events leave a relay in: that of the last write to it or reset, if any. */
  function Level(events: seq<HwEvent>, r: AcmeRelay): Option<RelayState> {
    if events == [] then None
    else
      var last := events[|events| - 1];
      if last.ResetAll? then Some(RelayOff)
      else if last.Write? && last.relay == r then Some(last.state)
      else Level(events[..|events| - 1], r)
  }

  lemma {:induction false} WritesAppend(a: seq<HwEvent>, b: seq<HwEvent>)
    ensures Writes(a + b) == Writes(a) + Writes(b)
  {
    if a != [] {
      assert (a + b)[1..] == a[1..] + b;
      WritesAppend(a[1..], b);
    } else {
      assert a + b == b;
    }
  }

  /** Every write `Writes` lists is one of the events. */
  lemma {:induction false} WritesFrom(events: seq<HwEvent>)
    ensures forall w | w in Writes(events) :: Write(w.0, w.1) in events
  {
    if events != [] {
      WritesFrom(events[1..]);
    }
  }

  /** A write to `r` followed by events that do not write `r` leaves `r` in the written state. */
  lemma {:induction false} LevelAfter(a: seq<HwEvent>, r: AcmeRelay, s: RelayState, b: seq<HwEvent>)
    requires forall e | e in b :: !Sets(e, r)
    ensures Level(a + [Write(r, s)] + b, r) == Some(s)
  {
    if b == [] {
      assert (a + [Write(r, s)] + b)[..|a|] == a;
    } else {
      var all := a + [Write(r, s)] + b;
      assert all[..|all| - 1] == a + [Write(r, s)] + b[..|b| - 1];
      assert b[|b| - 1] in b;
      LevelAfter(a, r, s, b[..|b| - 1]);
    }
  }

  /** Events that do not write `r` leave it where it was. */
  lemma {:induction false} LevelUntouched(a: seq<HwEvent>, r: AcmeRelay, b: seq<HwEvent>)
    requires forall e | e in b :: !Sets(e, r)
    ensures Level(a + b, r) == Level(a, r)
  {
    if b != [] {
      var all := a + b;
      assert all[..|all| - 1] == a + b[..|b| - 1];
      assert b[|b| - 1] in b;
      LevelUntouched(a, r, b[..|b| - 1]);
    } else {
      assert a + b == a;
    }
  }

  /**
   * `stop_arms` does nothing when the arms already show stop; otherwise it
   * writes direction off, motor on, motor off, in that order, so the motor is
   * off when it returns.
   */
  lemma StopArmsMoves(m: HeadMap, arms: ArmState, armTime: nat, sleepTime: int)
    requires Distinct(m) && armTime < Text.TWO_32
    ensures arms == ArmStop ==> StopArmsEvents(m, arms, armTime, sleepTime) == []
    ensures arms != ArmStop ==>
      Writes(StopArmsEvents(m, arms, armTime, sleepTime)) == [(m.direction, RelayOff), (m.motor, RelayOn), (m.motor, RelayOff)]
    ensures arms != ArmStop ==> Level(StopArmsEvents(m, arms, armTime, sleepTime), m.motor) == Some(RelayOff)
  {
    if arms != ArmStop {
      var e := StopArmsEvents(m, arms, armTime, sleepTime);
      assert e == e[..4] + [Write(m.motor, RelayOff)] + [];
      LevelAfter(e[..4], m.motor, RelayOff, []);
      WritesOfFive(e);
    }
  }

  /**
   * `go_arms` does nothing when the arms already show go; otherwise it writes
   * direction on, motor on, motor off, direction off, so both the motor and
   * the direction relay are off when it returns.
   */
  lemma GoArmsMoves(m: HeadMap, arms: ArmState, armTime: nat, sleepTime: int)
    requires Distinct(m) && armTime < Text.TWO_32
    ensures arms == ArmGo ==> GoArmsEvents(m, arms, armTime, sleepTime) == []
    ensures arms != ArmGo ==>
      Writes(GoArmsEvents(m, arms, armTime, sleepTime))
        == [(m.direction, RelayOn), (m.motor, RelayOn), (m.motor, RelayOff), (m.direction, RelayOff)]
    ensures arms != ArmGo ==> Level(GoArmsEvents(m, arms, armTime, sleepTime), m.motor) == Some(RelayOff)
    ensures arms != ArmGo ==> Level(GoArmsEvents(m, arms, armTime, sleepTime), m.direction) == Some(RelayOff)
  {
    if arms != ArmGo {
      var e := GoArmsEvents(m, arms, armTime, sleepTime);
      assert Parts(m)[3] != Parts(m)[4];
      assert e == e[..3] + [Write(m.motor, RelayOff)] + [Write(m.direction, RelayOff)];
      LevelAfter(e[..3], m.motor, RelayOff, [Write(m.direction, RelayOff)]);
      assert e == e[..4] + [Write(m.direction, RelayOff)] + [];
      LevelAfter(e[..4], m.direction, RelayOff, []);
      WritesOfFive(e);
    }
  }

  /** The writes of five events, spelled out. */
  lemma WritesOfFive(e: seq<HwEvent>)
    requires |e| == 5
    ensures Writes(e) == Writes([e[0]]) + Writes([e[1]]) + Writes([e[2]]) + Writes([e[3]]) + Writes([e[4]])
  {
    assert e == [e[0]] + [e[1]] + [e[2]] + [e[3]] + [e[4]];
    WritesAppend([e[0]], [e[1]]);
    WritesAppend([e[0]] + [e[1]], [e[2]]);
    WritesAppend([e[0]] + [e[1]] + [e[2]], [e[3]]);
    WritesAppend([e[0]] + [e[1]] + [e[2]] + [e[3]], [e[4]]);
  }

  /**
   * `fold_arms` writes nothing when the arms are folded already; otherwise it
   * switches the fold relay on, moves the arms the other way, and switches the
   * fold relay off again, leaving fold and motor relays off.
   */
  lemma FoldMoves(m: HeadMap, arms: ArmState, armTime: nat)
    requires Distinct(m) && armTime < Text.TWO_32
    ensures arms == ArmNone ==> FoldEvents(m, arms, armTime) == []
    ensures arms != ArmNone ==> Writes(FoldEvents(m, arms, armTime))[0] == (m.fold, RelayOn)
    ensures arms != ArmNone ==> Level(FoldEvents(m, arms, armTime), m.fold) == Some(RelayOff)
    ensures arms != ArmNone ==> Level(FoldEvents(m, arms, armTime), m.motor) == Some(RelayOff)
  {
    if arms != ArmNone {
      var move := if arms == ArmStop then GoArmsEvents(m, ArmStop, armTime, FoldPause(armTime))
                  else StopArmsEvents(m, ArmGo, armTime, FoldPause(armTime));
      var e := FoldEvents(m, arms, armTime);
      assert e == [Write(m.fold, RelayOn)] + move + [Write(m.fold, RelayOff)];
      if arms == ArmStop {
        GoArmsMoves(m, ArmStop, armTime, FoldPause(armTime));
      } else {
        StopArmsMoves(m, ArmGo, armTime, FoldPause(armTime));
      }
      WritesAppend([Write(m.fold, RelayOn)], move + [Write(m.fold, RelayOff)]);
      assert e == [Write(m.fold, RelayOn)] + move + [Write(m.fold, RelayOff)] + [];
      LevelAfter([Write(m.fold, RelayOn)] + move, m.fold, RelayOff, []);
      assert Parts(m)[4] != Parts(m)[5];
      LevelUntouched([Write(m.fold, RelayOn)] + move, m.motor, [Write(m.fold, RelayOff)]);
      assert Level(move, m.motor) == Some(RelayOff);
      MotorOffInside(m, move);
    }
  }

  /** A motor-off level inside a longer run survives a leading write to another relay. */
  lemma MotorOffInside(m: HeadMap, move: seq<HwEvent>)
    requires Distinct(m)
    requires Level(move, m.motor) == Some(RelayOff)
    ensures Level([Write(m.fold, RelayOn)] + move, m.motor) == Some(RelayOff)
  {
    LevelPrefix([Write(m.fold, RelayOn)], move, m.motor);
  }

  /** Once the later events set a level, earlier events do not matter. */
  lemma {:induction false} LevelPrefix(a: seq<HwEvent>, b: seq<HwEvent>, r: AcmeRelay)
    requires Level(b, r).Some?
    ensures Level(a + b, r) == Level(b, r)
  {
    var all := a + b;
    assert all[..|all| - 1] == a + b[..|b| - 1];
    if !Sets(b[|b| - 1], r) {
      LevelPrefix(a, b[..|b| - 1], r);
    }
  }

  /** Where the arms are after the operations. */
  lemma ArmsEndStates(arms: ArmState, how: SignalHow, enabled: bool)
    ensures ArmsAfter(arms, how, enabled, ArmStop) == (if Resolve(how, enabled) == LightsOnly then arms else ArmStop)
    ensures Resolve(AsConf, enabled) == (if enabled then ArmsAndLights else LightsOnly)
  {
  }

  /** With lights, `stop` first turns green off and then red on. */
  lemma StopLightOrder(m: HeadMap, arms: ArmState, how: SignalHow, enabled: bool, armTime: nat)
    requires armTime < Text.TWO_32
    requires Resolve(how, enabled) != ArmsOnly
    ensures var w := Writes(StopEvents(m, arms, how, enabled, armTime));
      |w| >= 2 && w[0] == (m.green, RelayOff) && w[1] == (m.red, RelayOn)
  {
    var lights := [Write(m.green, RelayOff), Write(m.red, RelayOn)];
    var rest := if Resolve(how, enabled) == LightsOnly then [] else StopArmsEvents(m, arms, armTime, -1);
    WritesAppend(lights, rest);
    assert lights[1..][1..] == [];
  }

  /** With lights, `go` first turns red off and then green on. */
  lemma GoLightOrder(m: HeadMap, arms: ArmState, how: SignalHow, enabled: bool, armTime: nat)
    requires armTime < Text.TWO_32
    requires Resolve(how, enabled) != ArmsOnly
    ensures var w := Writes(GoEvents(m, arms, how, enabled, armTime));
      |w| >= 2 && w[0] == (m.red, RelayOff) && w[1] == (m.green, RelayOn)
  {
    var lights := [Write(m.red, RelayOff), Write(m.green, RelayOn)];
    var rest := if Resolve(how, enabled) == LightsOnly then [] else GoArmsEvents(m, arms, armTime, -1);
    WritesAppend(lights, rest);
    assert lights[1..][1..] == [];
  }

  /** Arm moves write only the direction and motor relays, so they leave red and green alone. */
  lemma ArmsKeepLights(m: HeadMap, arms: ArmState, armTime: nat, sleepTime: int)
    requires Distinct(m) && armTime < Text.TWO_32
    ensures forall e | e in StopArmsEvents(m, arms, armTime, sleepTime) :: !Sets(e, m.red) && !Sets(e, m.green)
    ensures forall e | e in GoArmsEvents(m, arms, armTime, sleepTime) :: !Sets(e, m.red) && !Sets(e, m.green)
  {
    MotorNotLight(m);
  }

  /** With lights, `stop` leaves red on and green off, whatever the arms do after the lights. */
  lemma StopLightsEnd(m: HeadMap, arms: ArmState, how: SignalHow, enabled: bool, armTime: nat)
    requires Distinct(m) && armTime < Text.TWO_32
    requires Resolve(how, enabled) != ArmsOnly
    ensures Level(StopEvents(m, arms, how, enabled, armTime), m.red) == Some(RelayOn)
    ensures Level(StopEvents(m, arms, how, enabled, armTime), m.green) == Some(RelayOff)
  {
    var rest := if Resolve(how, enabled) == LightsOnly then [] else StopArmsEvents(m, arms, armTime, -1);
    var e := StopEvents(m, arms, how, enabled, armTime);
    ArmsKeepLights(m, arms, armTime, -1);
    assert Parts(m)[0] != Parts(m)[1];
    assert e == [] + [Write(m.green, RelayOff)] + ([Write(m.red, RelayOn)] + rest);
    LevelAfter([], m.green, RelayOff, [Write(m.red, RelayOn)] + rest);
    assert e == [Write(m.green, RelayOff)] + [Write(m.red, RelayOn)] + rest;
    LevelAfter([Write(m.green, RelayOff)], m.red, RelayOn, rest);
  }

  /** With lights, `go` leaves green on and red off, whatever the arms do after the lights. */
  lemma GoLightsEnd(m: HeadMap, arms: ArmState, how: SignalHow, enabled: bool, armTime: nat)
    requires Distinct(m) && armTime < Text.TWO_32
    requires Resolve(how, enabled) != ArmsOnly
    ensures Level(GoEvents(m, arms, how, enabled, armTime), m.green) == Some(RelayOn)
    ensures Level(GoEvents(m, arms, how, enabled, armTime), m.red) == Some(RelayOff)
  {
    var rest := if Resolve(how, enabled) == LightsOnly then [] else GoArmsEvents(m, arms, armTime, -1);
    var e := GoEvents(m, arms, how, enabled, armTime);
    ArmsKeepLights(m, arms, armTime, -1);
    assert Parts(m)[0] != Parts(m)[1];
    assert e == [] + [Write(m.red, RelayOff)] + ([Write(m.green, RelayOn)] + rest);
    LevelAfter([], m.red, RelayOff, [Write(m.green, RelayOn)] + rest);
    assert e == [Write(m.red, RelayOff)] + [Write(m.green, RelayOn)] + rest;
    LevelAfter([Write(m.red, RelayOff)], m.green, RelayOn, rest);
  }

  /** A head's lights: red, green and yellow. */
  predicate IsLight(m: HeadMap, r: AcmeRelay) {
    r == m.red || r == m.green || r == m.yellow
  }

  /** The direction and motor relays of a head are not lights. */
  lemma MotorNotLight(m: HeadMap)
    requires Distinct(m)
    ensures !IsLight(m, m.direction) && !IsLight(m, m.motor)
  {
    assert Parts(m)[0] != Parts(m)[3] && Parts(m)[1] != Parts(m)[3] && Parts(m)[2] != Parts(m)[3];
    assert Parts(m)[0] != Parts(m)[4] && Parts(m)[1] != Parts(m)[4] && Parts(m)[2] != Parts(m)[4];
  }

  /** `stop` with arms only writes no light relay. */
  lemma StopArmsOnlyNoLights(m: HeadMap, arms: ArmState, armTime: nat)
    requires Distinct(m) && armTime < Text.TWO_32
    ensures forall w | w in Writes(StopEvents(m, arms, ArmsOnly, false, armTime)) :: !IsLight(m, w.0)
  {
    assert StopEvents(m, arms, ArmsOnly, false, armTime) == StopArmsEvents(m, arms, armTime, -1);
    WritesFrom(StopArmsEvents(m, arms, armTime, -1));
    MotorNotLight(m);
  }

  /** `go` with arms only writes no light relay. */
  lemma GoArmsOnlyNoLights(m: HeadMap, arms: ArmState, armTime: nat)
    requires Distinct(m) && armTime < Text.TWO_32
    ensures forall w | w in Writes(GoEvents(m, arms, ArmsOnly, false, armTime)) :: !IsLight(m, w.0)
  {
    assert GoEvents(m, arms, ArmsOnly, false, armTime) == GoArmsEvents(m, arms, armTime, -1);
    WritesFrom(GoArmsEvents(m, arms, armTime, -1));
    MotorNotLight(m);
  }

  /** Ringing leaves both bells off and writes no other relay. */
  lemma DingEndsOff()
    ensures Level(DingEvents(), H1Bell) == Level(DingEvents(), H2Bell) == Some(RelayOff)
    ensures forall w | w in Writes(DingEvents()) :: w.0 == H1Bell || w.0 == H2Bell
  {
    var d := DingEvents();
    assert d == d[..3] + [Write(H1Bell, RelayOff)] + [Write(H2Bell, RelayOff)];
    LevelAfter(d[..3], H1Bell, RelayOff, [Write(H2Bell, RelayOff)]);
    assert d == d[..4] + [Write(H2Bell, RelayOff)] + [];
    LevelAfter(d[..4], H2Bell, RelayOff, []);
    WritesFrom(d);
  }

  /** Flashing leaves both yellows off and writes no other relay. */
  lemma FlashEndsOff(tenths: nat)
    ensures Level(FlashEvents(tenths), H1Yellow) == Level(FlashEvents(tenths), H2Yellow) == Some(RelayOff)
    ensures forall w | w in Writes(FlashEvents(tenths)) :: w.0 == H1Yellow || w.0 == H2Yellow
  {
    var f := FlashEvents(tenths);
    assert f == f[..3] + [Write(H1Yellow, RelayOff)] + [Write(H2Yellow, RelayOff)];
    LevelAfter(f[..3], H1Yellow, RelayOff, [Write(H2Yellow, RelayOff)]);
    assert f == f[..4] + [Write(H2Yellow, RelayOff)] + [];
    LevelAfter(f[..4], H2Yellow, RelayOff, []);
    WritesFrom(f);
  }

  /** Ringing then flashing leaves both bells and both yellow lights off. */
  lemma DingAndFlashEndOff(tenths: nat)
    ensures var e := DingEvents() + FlashEvents(tenths);
      Level(e, H1Bell) == Level(e, H2Bell) == Level(e, H1Yellow) == Level(e, H2Yellow) == Some(RelayOff)
  {
    var d, f := DingEvents(), FlashEvents(tenths);
    DingEndsOff();
    FlashEndsOff(tenths);
    LevelPrefix(d, f, H1Yellow);
    LevelPrefix(d, f, H2Yellow);
    assert forall e | e in f :: !Sets(e, H1Bell) && !Sets(e, H2Bell);
    LevelUntouched(d, H1Bell, f);
    LevelUntouched(d, H2Bell, f);
  }

  /** The relay board, as the log of what the hardware layer did to it. */
  class Board {
    var log: seq<HwEvent>

    constructor()
      ensures log == []
    {
      log := [];
    }

    /** `relay(...)`: switch one relay. */
    method Relay(r: AcmeRelay, s: RelayState)
      modifies this
      ensures log == old(log) + [Write(r, s)]
    {
      log := log + [Write(r, s)];
    }

    method Sleep10(tenths: nat)
      modifies this
      ensures log == old(log) + [HwEvent.Sleep10(tenths)]
    {
      log := log + [HwEvent.Sleep10(tenths)];
    }

    /** `relay_reset`: every relay off. */
    method Reset()
      modifies this
      ensures log == old(log) + [ResetAll]
    {
      log := log + [ResetAll];
    }

    method USleep(micros: nat)
      modifies this
      ensures log == old(log) + [HwEvent.USleep(micros)]
    {
      log := log + [HwEvent.USleep(micros)];
    }
  }

  /** One signal head: its relay map, the board it drives, and where its arms are. */
  class Head {
    const parts: HeadMap
    const board: Board
    var arms: ArmState

    /** A new head has its arms in no known position. */
    constructor(m: HeadMap, b: Board)
      ensures parts == m && board == b && arms == ArmNone
    {
      parts, board := m, b;
      arms := ArmNone;
    }

    /** `is_go`. */
    predicate IsGo()
      reads this
    {
      arms == ArmGo
    }

    /** `stop_arms`: `sleepTime` negative means the configured arm time. */
    method StopArms(armTime: nat, sleepTime: int)
      requires armTime < Text.TWO_32
      modifies this, board
      ensures board.log == old(board.log) + StopArmsEvents(parts, old(arms), armTime, sleepTime)
      ensures arms == ArmStop
    {
      if arms != ArmStop {
        board.Sleep10(armTime);
        board.Relay(parts.direction, RelayOff);
        board.Relay(parts.motor, RelayOn);
        board.Sleep10(MovePause(armTime, sleepTime));
        board.Relay(parts.motor, RelayOff);
        arms := ArmStop;
      }
    }

    /** `go_arms`: `sleepTime` negative means the configured arm time. */
    method GoArms(armTime: nat, sleepTime: int)
      requires armTime < Text.TWO_32
      modifies this, board
      ensures board.log == old(board.log) + GoArmsEvents(parts, old(arms), armTime, sleepTime)
      ensures arms == ArmGo
    {
      if arms != ArmGo {
        board.Relay(parts.direction, RelayOn);
        board.Relay(parts.motor, RelayOn);
        board.Sleep10(MovePause(armTime, sleepTime));
        board.Relay(parts.motor, RelayOff);
        board.Relay(parts.direction, RelayOff);
        arms := ArmGo;
      }
    }

    /** `fold_arms`, also what the destructor does. */
    method FoldArms(armTime: nat)
      requires armTime < Text.TWO_32
      modifies this, board
      ensures board.log == old(board.log) + FoldEvents(parts, old(arms), armTime)
      ensures arms == ArmNone
    {
      var sleepTime := FoldPause(armTime);
      match arms
      case ArmNone =>
      case ArmStop =>
        board.Relay(parts.fold, RelayOn);
        GoArms(armTime, sleepTime);
        board.Relay(parts.fold, RelayOff);
        arms := ArmNone;
      case ArmGo =>
        board.Relay(parts.fold, RelayOn);
        StopArms(armTime, sleepTime);
        board.Relay(parts.fold, RelayOff);
        arms := ArmNone;
    }

    /** `stop`. */
    method Stop(how: SignalHow, enabled: bool, armTime: nat)
      requires armTime < Text.TWO_32
      modifies this, board
      ensures board.log == old(board.log) + StopEvents(parts, old(arms), how, enabled, armTime)
      ensures arms == ArmsAfter(old(arms), how, enabled, ArmStop)
    {
      var h := Resolve(how, enabled);
      match h
      case ArmsAndLights =>
        board.Relay(parts.green, RelayOff);
        board.Relay(parts.red, RelayOn);
        StopArms(armTime, -1);
      case ArmsOnly =>
        StopArms(armTime, -1);
      case LightsOnly =>
        board.Relay(parts.green, RelayOff);
        board.Relay(parts.red, RelayOn);
    }

    /** `go`. */
    method Go(how: SignalHow, enabled: bool, armTime: nat)
      requires armTime < Text.TWO_32
      modifies this, board
      ensures board.log == old(board.log) + GoEvents(parts, old(arms), how, enabled, armTime)
      ensures arms == ArmsAfter(old(arms), how, enabled, ArmGo)
    {
      var h := Resolve(how, enabled);
      match h
      case ArmsAndLights =>
        board.Relay(parts.red, RelayOff);
        board.Relay(parts.green, RelayOn);
        GoArms(armTime, -1);
      case ArmsOnly =>
        GoArms(armTime, -1);
      case LightsOnly =>
        board.Relay(parts.red, RelayOff);
        board.Relay(parts.green, RelayOn);
    }

    /** `lights_off`. */
    method LightsOff()
      modifies board
      ensures board.log == old(board.log) + [Write(parts.red, RelayOff), Write(parts.green, RelayOff)]
    {
      board.Relay(parts.red, RelayOff);
      board.Relay(parts.green, RelayOff);
    }

    /** `bell`: one ring of this head's bell. */
    method Bell()
      modifies board
      ensures board.log == old(board.log) + BellEvents(parts)
    {
      board.Relay(parts.bell, RelayOn);
      board.Sleep10(100);
      board.Relay(parts.bell, RelayOff);
    }
  }

  /** `ding_and_flash_both`: ring both bells, then flash both yellows for 1.5 seconds. */
  method DingAndFlashBoth(board: Board)
    modifies board
    ensures board.log == old(board.log) + DingEvents() + FlashEvents(15)
  {
    DingBoth(board);
    FlashYellows(board, 15);
  }

  /** `ding_both`. */
  method DingBoth(board: Board)
    modifies board
    ensures board.log == old(board.log) + DingEvents()
  {
    board.Relay(H1Map.bell, RelayOn);
    board.Relay(H2Map.bell, RelayOn);
    board.USleep(750);
    board.Relay(H1Map.bell, RelayOff);
    board.Relay(H2Map.bell, RelayOff);
  }

  /** `flash_both` flashes for 2.5 seconds. */
  method FlashBoth(board: Board)
    modifies board
    ensures board.log == old(board.log) + FlashEvents(25)
  {
    FlashYellows(board, 25);
  }

  method FlashYellows(board: Board, tenths: nat)
    modifies board
    ensures board.log == old(board.log) + FlashEvents(tenths)
  {
    board.Relay(H1Map.yellow, RelayOn);
    board.Relay(H2Map.yellow, RelayOn);
    board.Sleep10(tenths);
    board.Relay(H1Map.yellow, RelayOff);
    board.Relay(H2Map.yellow, RelayOff);
  }
}
