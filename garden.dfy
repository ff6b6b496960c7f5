/**
 * The garden controller: the tables that route button presses to signal
 * handlers, the control-command dispatcher, and one trigger-to-rest pass of
 * each signal handler.
 *
 * The program runs every handler in its own thread; here a handler pass is a
 * method of one `Garden` object that owns the sixteen relay outputs, one
 * trigger counter per handler (its semaphore), the shared `signal_mode` and
 * `low_noise_active` flags, and a log of what the handlers did, in order.
 * What the other threads do while a handler is blocked is an `Env` value
 * given for each wait: how many triggers the waiting handler's semaphore
 * still holds when the wait returns (after the wait took its own), and the
 * two shared flags as the handler finds them then.
 */
module Garden {
  import opened Wrappers
  import opened Text
  import opened RelayNames

  /** The handlers, in the order of the C enumeration; `HandleLast` is the end marker. */
  datatype Handler =
    | HandleH2 | HandleW4 | HandleC3 | HandleCar
    | HandleLWW | HandleBell | HandleUWW | HandleNoise
    | HandleLast

  function HandlerIndex(h: Handler): (i: nat)
    ensures i <= 8
    ensures i == 8 <==> h == HandleLast
  {
    match h
    case HandleH2 => 0
    case HandleW4 => 1
    case HandleC3 => 2
    case HandleCar => 3
    case HandleLWW => 4
    case HandleBell => 5
    case HandleUWW => 6
    case HandleNoise => 7
    case HandleLast => 8
  }

  /** Number of real handlers, each with its own trigger counter. */
  const HandlerCount: nat := 8

  /** Handler for each digit arriving on the input pipe. */
  const ButtonHandlerMap: seq<Handler> := [
    HandleH2, HandleW4, HandleC3, HandleC3, HandleCar,
    HandleBell, HandleLWW, HandleUWW, HandleH2, HandleH2
  ]

  datatype SignalMode = SignalNormal | SignalLowNoise

  /** GPIO pin of the "no sound" switch and of the "low noise" switch. */
  const SwitchNoSound: int := 0
  const SwitchLowNoise: int := 1

  /** What a handler does that others can observe, in order. */
  datatype Event =
    | WriteRelay(relay: RelayName, state: RelayState)
    | SetMode(mode: SignalMode)
    | SetLatch(active: bool)
    | Post(handler: Handler)
    | BoardReset

  /** What the other threads left behind when a handler's wait returns. */
  datatype Env = Env(left: nat, mode: SignalMode, lowNoise: bool)

  // ---------------------------------------------------------------------
  // Relay outputs as a function of the events
  // ---------------------------------------------------------------------

  /** Every relay OFF. */
  const AllOff: seq<bool> := seq(RelayCount, _ => false)

  function ApplyEvent(relays: seq<bool>, e: Event): (r: seq<bool>)
    requires |relays| == RelayCount
    ensures |r| == RelayCount
  {
    match e
    case WriteRelay(name, state) => relays[Index(name) := state == RelayOn]
    case BoardReset => seq(RelayCount, _ => false)
    case _ => relays
  }

  /** The relay outputs after a sequence of events. */
  function ApplyEvents(relays: seq<bool>, events: seq<Event>): (r: seq<bool>)
    requires |relays| == RelayCount
    ensures |r| == RelayCount
  {
    if events == [] then relays
    else ApplyEvent(ApplyEvents(relays, events[..|events| - 1]), events[|events| - 1])
  }

  lemma {:induction false} ApplyEventsAppend(relays: seq<bool>, e1: seq<Event>, e2: seq<Event>)
    requires |relays| == RelayCount
    ensures ApplyEvents(relays, e1 + e2) == ApplyEvents(ApplyEvents(relays, e1), e2)
    decreases |e2|
  {
    if e2 == [] {
      assert e1 + e2 == e1;
    } else {
      var init := e2[..|e2| - 1];
      assert (e1 + e2)[..|e1 + e2| - 1] == e1 + init;
      ApplyEventsAppend(relays, e1, init);
    }
  }

  /** The relays an event sequence writes. */
  predicate WritesOnly(events: seq<Event>, allowed: set<RelayName>)
  {
    forall i :: 0 <= i < |events| && events[i].WriteRelay? ==> events[i].relay in allowed
  }

  /** A relay that no event writes (and no reset touches) keeps its value. */
  lemma {:induction false} UnwrittenRelayKept(relays: seq<bool>, events: seq<Event>, r: RelayName)
    requires |relays| == RelayCount
    requires forall i :: 0 <= i < |events| ==> !events[i].BoardReset? && (events[i].WriteRelay? ==> events[i].relay != r)
    ensures ApplyEvents(relays, events)[Index(r)] == relays[Index(r)]
    decreases |events|
  {
    if events != [] {
      var init := events[..|events| - 1];
      UnwrittenRelayKept(relays, init, r);
      var e := events[|events| - 1];
      if e.WriteRelay? {
        assert Index(e.relay) != Index(r);
      }
    }
  }

  /** The last write to a relay decides its value. */
  lemma {:induction false} LastWriteWins(relays: seq<bool>, events: seq<Event>, k: nat)
    requires |relays| == RelayCount
    requires k < |events| && events[k].WriteRelay?
    requires forall i :: k < i < |events| ==> !events[i].BoardReset? && (events[i].WriteRelay? ==> events[i].relay != events[k].relay)
    ensures ApplyEvents(relays, events)[Index(events[k].relay)] == (events[k].state == RelayOn)
    decreases |events|
  {
    if k < |events| - 1 {
      var init := events[..|events| - 1];
      LastWriteWins(relays, init, k);
      var e := events[|events| - 1];
      if e.WriteRelay? {
        assert Index(e.relay) != Index(events[k].relay);
      }
    }
  }

  // ---------------------------------------------------------------------
  // The staged handlers (H2, 4-white, 3-colour, track car)
  // ---------------------------------------------------------------------

  /**
   * A staged handler: the rest-state writes done before it waits for a
   * trigger (in the 3-colour and track-car handlers only in NORMAL mode),
   * then stages, each followed by a timed wait (and, in the handlers that
   * yield to the noise routine, by a check of the mode that abandons the
   * pass in LOW_NOISE), then the final writes.
   */
  datatype Table = Table(
    rest: seq<Event>, restOnlyNormal: bool,
    stages: seq<seq<Event>>, final: seq<Event>, checked: bool)

  /** How far a pass has got: the log so far and the environment the last wait returned to. */
  datatype Progress = Progress(log: seq<Event>, seen: Env)

  /**
   * The stages still to run from `p`: each logs its writes and then waits
   * (`envs[0]` for the first); a checked handler that finds LOW_NOISE after
   * a wait stops there; once the stages are done the final writes follow.
   */
  function Run(p: Progress, stages: seq<seq<Event>>, final: seq<Event>, envs: seq<Env>, checked: bool): (r: Progress)
    requires |envs| >= |stages|
    ensures p.log <= r.log
    ensures r.seen == p.seen || r.seen in envs
    decreases |stages|
  {
    if stages == [] then Progress(p.log + final, p.seen)
    else
      var q := Progress(p.log + stages[0], envs[0]);
      if checked && envs[0].mode == SignalLowNoise then q
      else Run(q, stages[1..], final, envs[1..], checked)
  }

  /** The rest-state writes a pass starting in mode `start` performs. */
  function Rest(t: Table, start: SignalMode): seq<Event>
  {
    if !t.restOnlyNormal || start == SignalNormal then t.rest else []
  }

  /**
   * One pass of a staged handler that starts in mode `start` with log `log`:
   * the counter is cleared, the rest state written, and `envs[0]` is the
   * wait for the trigger.
   */
  function HandlerPass(t: Table, start: SignalMode, log: seq<Event>, envs: seq<Env>): (r: Progress)
    requires |envs| == |t.stages| + 1
    ensures log + Rest(t, start) <= r.log
    ensures r.seen in envs
  {
    var p := Progress(log + Rest(t, start), envs[0]);
    if t.checked && envs[0].mode == SignalLowNoise then p
    else Run(p, t.stages, t.final, envs[1..], t.checked)
  }

  /** One step of `Run` from stage `k` on. */
  lemma RunStep(p: Progress, stages: seq<seq<Event>>, final: seq<Event>, envs: seq<Env>, checked: bool, k: nat)
    requires k < |stages| <= |envs|
    ensures var q := Progress(p.log + stages[k], envs[k]);
      Run(p, stages[k..], final, envs[k..], checked) ==
        if checked && envs[k].mode == SignalLowNoise then q
        else Run(q, stages[k + 1..], final, envs[k + 1..], checked)
  {
    assert stages[k..][0] == stages[k] && envs[k..][0] == envs[k];
    assert stages[k..][1..] == stages[k + 1..];
    assert envs[k..][1..] == envs[k + 1..];
  }

  /** `Run` once every stage is done. */
  lemma RunDone(p: Progress, stages: seq<seq<Event>>, final: seq<Event>, envs: seq<Env>, checked: bool)
    requires |stages| <= |envs|
    ensures Run(p, stages[|stages|..], final, envs[|stages|..], checked) == Progress(p.log + final, p.seen)
  {
    assert stages[|stages|..] == [];
  }

  function Flatten(stages: seq<seq<Event>>): seq<Event>
  {
    if stages == [] then [] else stages[0] + Flatten(stages[1..])
  }

  predicate AllNormal(envs: seq<Env>)
  {
    forall i :: 0 <= i < |envs| ==> envs[i].mode == SignalNormal
  }

  /** When no wait sees LOW_NOISE (or the handler never looks), every stage and the final writes run. */
  lemma {:induction false} RunComplete(p: Progress, stages: seq<seq<Event>>, final: seq<Event>, envs: seq<Env>, checked: bool)
    requires |envs| >= |stages|
    requires !checked || AllNormal(envs[..|stages|])
    ensures Run(p, stages, final, envs, checked) ==
      Progress(p.log + Flatten(stages) + final,
               if stages == [] then p.seen else envs[|stages| - 1])
    decreases |stages|
  {
    if stages != [] {
      if checked {
        assert envs[0] == envs[..|stages|][0];
        assert envs[1..][..|stages| - 1] == envs[..|stages|][1..];
      }
      var q := Progress(p.log + stages[0], envs[0]);
      RunComplete(q, stages[1..], final, envs[1..], checked);
      assert envs[1..][..|stages| - 1] == envs[..|stages|][1..];
      assert q.log + Flatten(stages[1..]) + final == p.log + Flatten(stages) + final;
      if |stages| > 1 {
        assert envs[1..][|stages[1..]| - 1] == envs[|stages| - 1];
      }
    }
  }

  /** The first wait that sees LOW_NOISE ends the pass: the stages after it and the final writes never run. */
  lemma {:induction false} RunAbandon(p: Progress, stages: seq<seq<Event>>, final: seq<Event>, envs: seq<Env>, k: nat)
    requires k < |stages| && |envs| >= |stages|
    requires AllNormal(envs[..k]) && envs[k].mode == SignalLowNoise
    ensures Run(p, stages, final, envs, true) ==
      Progress(p.log + Flatten(stages[..k + 1]), envs[k])
    decreases |stages|
  {
    var q := Progress(p.log + stages[0], envs[0]);
    assert envs[..k + 1][1..] == envs[1..][..k];
    if k == 0 {
      assert stages[..1][1..] == [];
      assert Flatten(stages[..1]) == stages[0] + [];
    } else {
      assert envs[0] == envs[..k][0];
      assert envs[1..][..k - 1] == envs[..k][1..];
      RunAbandon(q, stages[1..], final, envs[1..], k - 1);
      assert stages[..k + 1][1..] == stages[1..][..k];
    }
  }

  /** The relays a stretch of log writes: `log` extends `base` with writes to `allowed` relays only. */
  predicate Extends(log: seq<Event>, base: seq<Event>, allowed: set<RelayName>)
  {
    |base| <= |log| && log[..|base|] == base && WritesOnly(log[|base|..], allowed)
  }

  lemma ExtendsAppend(base: seq<Event>, s: seq<Event>, allowed: set<RelayName>)
    requires WritesOnly(s, allowed)
    ensures Extends(base + s, base, allowed)
  {
    assert (base + s)[|base|..] == s;
  }

  lemma ExtendsTrans(log: seq<Event>, mid: seq<Event>, base: seq<Event>, allowed: set<RelayName>)
    requires Extends(log, mid, allowed) && Extends(mid, base, allowed)
    ensures Extends(log, base, allowed)
  {
    assert log[|base|..] == mid[|base|..] + log[|mid|..];
    forall i | 0 <= i < |log[|base|..]| && log[|base|..][i].WriteRelay?
      ensures log[|base|..][i].relay in allowed
    {
      if i < |mid| - |base| {
        assert log[|base|..][i] == mid[|base|..][i];
      } else {
        assert log[|base|..][i] == log[|mid|..][i - (|mid| - |base|)];
      }
    }
  }

  /** Whatever the waits return, `Run` only appends the writes of the stages and the final writes. */
  lemma {:induction false} RunWritesOnly(p: Progress, stages: seq<seq<Event>>, final: seq<Event>, envs: seq<Env>, checked: bool, allowed: set<RelayName>)
    requires |envs| >= |stages|
    requires forall k :: 0 <= k < |stages| ==> WritesOnly(stages[k], allowed)
    requires WritesOnly(final, allowed)
    ensures Extends(Run(p, stages, final, envs, checked).log, p.log, allowed)
    decreases |stages|
  {
    if stages == [] {
      ExtendsAppend(p.log, final, allowed);
    } else {
      var q := Progress(p.log + stages[0], envs[0]);
      assert WritesOnly(stages[0], allowed);
      ExtendsAppend(p.log, stages[0], allowed);
      if !(checked && envs[0].mode == SignalLowNoise) {
        assert forall k :: 0 <= k < |stages[1..]| ==> stages[1..][k] == stages[k + 1];
        RunWritesOnly(q, stages[1..], final, envs[1..], checked, allowed);
        ExtendsTrans(Run(p, stages, final, envs, checked).log, q.log, p.log, allowed);
      }
    }
  }

  lemma HandlerPassWritesOnly(t: Table, start: SignalMode, log: seq<Event>, envs: seq<Env>, allowed: set<RelayName>)
    requires |envs| == |t.stages| + 1
    requires WritesOnly(t.rest, allowed) && WritesOnly(t.final, allowed)
    requires forall k :: 0 <= k < |t.stages| ==> WritesOnly(t.stages[k], allowed)
    ensures Extends(HandlerPass(t, start, log, envs).log, log, allowed)
  {
    var p := Progress(log + Rest(t, start), envs[0]);
    ExtendsAppend(log, Rest(t, start), allowed);
    if !(t.checked && envs[0].mode == SignalLowNoise) {
      RunWritesOnly(p, t.stages, t.final, envs[1..], t.checked, allowed);
      ExtendsTrans(HandlerPass(t, start, log, envs).log, p.log, log, allowed);
    }
  }

  /** Appending the next event of a script to a log that holds the script's first `k` events. */
  lemma Extend(log: seq<Event>, script: seq<Event>, k: nat, e: Event)
    requires k < |script| && script[k] == e
    ensures log + script[..k] + [e] == log + script[..k + 1]
  {
    assert script[..k + 1] == script[..k] + [e];
  }

  lemma Snoc2(l: seq<Event>, a: Event, b: Event)
    ensures l + [a] + [b] == l + [a, b]
  {
  }

  lemma Snoc4(l: seq<Event>, a: Event, b: Event, c: Event, d: Event)
    ensures l + [a] + [b] + [c] + [d] == l + [a, b, c, d]
  {
  }

  lemma Snoc3(l: seq<Event>, a: Event, b: Event, c: Event)
    ensures l + [a] + [b] + [c] == l + [a, b, c]
  {
  }

  const H2Table := Table(
    [WriteRelay(H2Relay, RelayOff)], false,
    [[WriteRelay(H2Relay, RelayOn)]],
    [], false)

  const W4Table := Table(
    [WriteRelay(W4Red, RelayOff), WriteRelay(W4Yellow, RelayOn), WriteRelay(W4Green, RelayOff)], false,
    [[WriteRelay(W4Red, RelayOn), WriteRelay(W4Yellow, RelayOff)],
     [WriteRelay(W4Red, RelayOff), WriteRelay(W4Yellow, RelayOn)],
     [WriteRelay(W4Yellow, RelayOff), WriteRelay(W4Green, RelayOn)]],
    [], false)

  const C3Table := Table(
    [WriteRelay(C3Red, RelayOff), WriteRelay(C3Yellow, RelayOff), WriteRelay(C3Green, RelayOff)], true,
    [[WriteRelay(C3Red, RelayOn)],
     [WriteRelay(C3Red, RelayOff), WriteRelay(C3Yellow, RelayOn)],
     [WriteRelay(C3Yellow, RelayOff), WriteRelay(C3Green, RelayOn)]],
    [], true)

  const CarTable := Table(
    [WriteRelay(TrackSemL, RelayOff), WriteRelay(TrackSemR, RelayOff), WriteRelay(TrackCar, RelayOff)], true,
    [[WriteRelay(TrackSemL, RelayOn), WriteRelay(TrackSemR, RelayOn), WriteRelay(TrackCar, RelayOn)],
     [WriteRelay(TrackCar, RelayOff)],
     [WriteRelay(TrackCar, RelayOn), WriteRelay(TrackSemL, RelayOff)],
     [WriteRelay(TrackSemL, RelayOn), WriteRelay(TrackSemR, RelayOff)]],
    [WriteRelay(TrackCar, RelayOff), WriteRelay(TrackSemL, RelayOff)], true)

  /**
   * Each staged handler drives only its own signal: H2 its one relay, the
   * 4-white and 3-colour handlers their three lamps, the track-car handler
   * the two semaphores and the car indicator.
   */
  lemma StagedHandlersStayOnTheirRelays(start: SignalMode, log: seq<Event>, envs: seq<Env>)
    requires envs != []
    ensures |envs| == 2 ==> Extends(HandlerPass(H2Table, start, log, envs).log, log, {H2Relay})
    ensures |envs| == 4 ==> Extends(HandlerPass(W4Table, start, log, envs).log, log, {W4Red, W4Yellow, W4Green})
    ensures |envs| == 4 ==> Extends(HandlerPass(C3Table, start, log, envs).log, log, {C3Red, C3Yellow, C3Green})
    ensures |envs| == 5 ==> Extends(HandlerPass(CarTable, start, log, envs).log, log, {TrackSemL, TrackSemR, TrackCar})
  {
    if |envs| == 2 {
      HandlerPassWritesOnly(H2Table, start, log, envs, {H2Relay});
    }
    if |envs| == 4 {
      HandlerPassWritesOnly(W4Table, start, log, envs, {W4Red, W4Yellow, W4Green});
      HandlerPassWritesOnly(C3Table, start, log, envs, {C3Red, C3Yellow, C3Green});
    }
    if |envs| == 5 {
      HandlerPassWritesOnly(CarTable, start, log, envs, {TrackSemL, TrackSemR, TrackCar});
    }
  }

  /**
   * A pass of a handler that yields to the noise routine, whose `k`-th wait
   * (0 being the wait for the trigger) is the first to see LOW_NOISE, stops
   * right there: the stages after it and the final writes never run, and
   * the counter is what that wait left.
   */
  lemma HandlerPassAbandon(t: Table, start: SignalMode, log: seq<Event>, envs: seq<Env>, k: nat)
    requires |envs| == |t.stages| + 1 && t.checked
    requires k < |envs| && AllNormal(envs[..k]) && envs[k].mode == SignalLowNoise
    ensures HandlerPass(t, start, log, envs) ==
      Progress(log + Rest(t, start) + Flatten(t.stages[..k]), envs[k])
  {
    if k == 0 {
      assert t.stages[..0] == [];
      assert log + Rest(t, start) + [] == log + Rest(t, start);
    } else {
      assert envs[0] == envs[..k][0];
      assert envs[1..][..k - 1] == envs[..k][1..];
      assert envs[1..][k - 1] == envs[k];
      assert envs[1..][..k] == envs[1..k + 1];
      RunAbandon(Progress(log + Rest(t, start), envs[0]), t.stages, t.final, envs[1..], k - 1);
    }
  }

  /** A pass that never sees LOW_NOISE (or never looks) runs the rest state, every stage and the final writes. */
  lemma HandlerPassComplete(t: Table, start: SignalMode, log: seq<Event>, envs: seq<Env>)
    requires |envs| == |t.stages| + 1
    requires !t.checked || AllNormal(envs)
    ensures HandlerPass(t, start, log, envs) ==
      Progress(log + Rest(t, start) + Flatten(t.stages) + t.final, envs[|envs| - 1])
  {
    assert envs[1..][..|t.stages|] == envs[1..];
    if t.checked {
      assert envs[0].mode == SignalNormal;
      assert forall i :: 0 <= i < |envs[1..]| ==> envs[1..][i] == envs[i + 1];
    }
    RunComplete(Progress(log + Rest(t, start), envs[0]), t.stages, t.final, envs[1..], t.checked);
    if t.stages != [] {
      assert envs[1..][|t.stages| - 1] == envs[|envs| - 1];
    }
  }

  /**
   * A track-car pass that starts in NORMAL mode and never sees LOW_NOISE
   * waits five times and ends with the car indicator and both semaphores
   * OFF, whatever the relays were before.
   */
  lemma CarCompletePass(relays: seq<bool>, log: seq<Event>, envs: seq<Env>)
    requires |relays| == RelayCount && |envs| == 5 && AllNormal(envs)
    ensures HandlerPass(CarTable, SignalNormal, log, envs).seen == envs[4]
    ensures var after := ApplyEvents(relays, HandlerPass(CarTable, SignalNormal, log, envs).log);
      !after[Index(TrackCar)] && !after[Index(TrackSemL)] && !after[Index(TrackSemR)]
  {
    HandlerPassComplete(CarTable, SignalNormal, log, envs);
    var st := CarTable.stages;
    assert Flatten(st) == st[0] + (st[1] + (st[2] + (st[3] + [])));
    var prefix := log + CarTable.rest + st[0] + st[1] + st[2];
    var tail := st[3] + CarTable.final;
    assert HandlerPass(CarTable, SignalNormal, log, envs).log == prefix + tail;
    assert tail == [
      WriteRelay(TrackSemL, RelayOn), WriteRelay(TrackSemR, RelayOff),
      WriteRelay(TrackCar, RelayOff), WriteRelay(TrackSemL, RelayOff)];
    ApplyEventsAppend(relays, prefix, tail);
    CarTail(ApplyEvents(relays, prefix), tail);
  }

  /** The last two stage writes and the final writes of a track-car pass turn its three relays OFF. */
  lemma CarTail(relays: seq<bool>, tail: seq<Event>)
    requires |relays| == RelayCount
    requires tail == [
      WriteRelay(TrackSemL, RelayOn), WriteRelay(TrackSemR, RelayOff),
      WriteRelay(TrackCar, RelayOff), WriteRelay(TrackSemL, RelayOff)]
    ensures var after := ApplyEvents(relays, tail);
      !after[Index(TrackCar)] && !after[Index(TrackSemL)] && !after[Index(TrackSemR)]
  {
    LastWriteWins(relays, tail, 1);
    LastWriteWins(relays, tail, 2);
    LastWriteWins(relays, tail, 3);
  }

  /** The 4-white handler never looks at the mode: every pass runs all three stages and ends on green alone. */
  lemma W4AlwaysCompletes(relays: seq<bool>, start: SignalMode, log: seq<Event>, envs: seq<Env>)
    requires |relays| == RelayCount && |envs| == 4
    ensures HandlerPass(W4Table, start, log, envs).seen == envs[3]
    ensures var after := ApplyEvents(relays, HandlerPass(W4Table, start, log, envs).log);
      !after[Index(W4Red)] && !after[Index(W4Yellow)] && after[Index(W4Green)]
  {
    W4PassShape(start, log, envs);
    var prefix := log + [WriteRelay(W4Red, RelayOff)] + [WriteRelay(W4Yellow, RelayOn)] + [WriteRelay(W4Green, RelayOff)]
      + [WriteRelay(W4Red, RelayOn)] + [WriteRelay(W4Yellow, RelayOff)];
    var tail := [
      WriteRelay(W4Red, RelayOff), WriteRelay(W4Yellow, RelayOn),
      WriteRelay(W4Yellow, RelayOff), WriteRelay(W4Green, RelayOn)];
    Snoc4(prefix, tail[0], tail[1], tail[2], tail[3]);
    ApplyEventsAppend(relays, prefix, tail);
    W4Tail(ApplyEvents(relays, prefix), tail);
  }

  /** The last two stages of a 4-white pass leave green alone ON. */
  lemma W4Tail(relays: seq<bool>, tail: seq<Event>)
    requires |relays| == RelayCount
    requires tail == [
      WriteRelay(W4Red, RelayOff), WriteRelay(W4Yellow, RelayOn),
      WriteRelay(W4Yellow, RelayOff), WriteRelay(W4Green, RelayOn)]
    ensures var after := ApplyEvents(relays, tail);
      !after[Index(W4Red)] && !after[Index(W4Yellow)] && after[Index(W4Green)]
  {
    LastWriteWins(relays, tail, 0);
    LastWriteWins(relays, tail, 2);
    LastWriteWins(relays, tail, 3);
  }

  /** A pass of the H2 handler, write by write: OFF, the trigger, ON, one timed wait. */
  lemma H2PassShape(start: SignalMode, log: seq<Event>, envs: seq<Env>)
    requires |envs| == 2
    ensures HandlerPass(H2Table, start, log, envs) ==
      Progress(log + [WriteRelay(H2Relay, RelayOff)] + [WriteRelay(H2Relay, RelayOn)],
               envs[1])
  {
    var p0 := Progress(log + [WriteRelay(H2Relay, RelayOff)], envs[0]);
    assert H2Table.stages[1..] == [];
    assert Run(p0, H2Table.stages, [], envs[1..], false) ==
      Run(Progress(p0.log + [WriteRelay(H2Relay, RelayOn)], envs[1]), [], [], envs[2..], false);
  }

  /** A pass of the 4-white handler, write by write: it never looks at the mode. */
  lemma W4PassShape(start: SignalMode, log: seq<Event>, envs: seq<Env>)
    requires |envs| == 4
    ensures HandlerPass(W4Table, start, log, envs) ==
      var l0 := log + [WriteRelay(W4Red, RelayOff)] + [WriteRelay(W4Yellow, RelayOn)] + [WriteRelay(W4Green, RelayOff)];
      var l1 := l0 + [WriteRelay(W4Red, RelayOn)] + [WriteRelay(W4Yellow, RelayOff)];
      var l2 := l1 + [WriteRelay(W4Red, RelayOff)] + [WriteRelay(W4Yellow, RelayOn)];
      var l3 := l2 + [WriteRelay(W4Yellow, RelayOff)] + [WriteRelay(W4Green, RelayOn)];
      Progress(l3, envs[3])
  {
    HandlerPassComplete(W4Table, start, log, envs);
    assert envs[1..][1..][1..][1..] == [];
    var st := W4Table.stages;
    assert Flatten(st) == st[0] + (st[1] + (st[2] + []));
    Snoc3(log, WriteRelay(W4Red, RelayOff), WriteRelay(W4Yellow, RelayOn), WriteRelay(W4Green, RelayOff));
    var l0 := log + W4Table.rest;
    Snoc2(l0, WriteRelay(W4Red, RelayOn), WriteRelay(W4Yellow, RelayOff));
    Snoc2(l0 + st[0], WriteRelay(W4Red, RelayOff), WriteRelay(W4Yellow, RelayOn));
    Snoc2(l0 + st[0] + st[1], WriteRelay(W4Yellow, RelayOff), WriteRelay(W4Green, RelayOn));
    assert l0 + Flatten(st) + [] == l0 + st[0] + st[1] + st[2];
  }

  /**
   * A pass of the 3-colour handler, write by write: the rest writes only in
   * NORMAL mode, and after every wait a LOW_NOISE mode ends the pass.
   */
  lemma C3PassShape(start: SignalMode, log: seq<Event>, envs: seq<Env>)
    requires |envs| == 4
    ensures HandlerPass(C3Table, start, log, envs) ==
      var l0 := log + Rest(C3Table, start);
      if envs[0].mode == SignalLowNoise then Progress(l0, envs[0]) else
      var l1 := l0 + [WriteRelay(C3Red, RelayOn)];
      if envs[1].mode == SignalLowNoise then Progress(l1, envs[1]) else
      var l2 := l1 + [WriteRelay(C3Red, RelayOff)] + [WriteRelay(C3Yellow, RelayOn)];
      if envs[2].mode == SignalLowNoise then Progress(l2, envs[2]) else
      var l3 := l2 + [WriteRelay(C3Yellow, RelayOff)] + [WriteRelay(C3Green, RelayOn)];
      Progress(l3, envs[3])
  {
    var st, e := C3Table.stages, envs[1..];
    var p0 := Progress(log + Rest(C3Table, start), envs[0]);
    if envs[0].mode == SignalNormal {
      var p1 := Progress(p0.log + st[0], e[0]);
      assert Run(p0, st, [], e, true) == if e[0].mode == SignalLowNoise then p1 else Run(p1, st[1..], [], e[1..], true);
      if e[0].mode == SignalNormal {
        Snoc2(p1.log, WriteRelay(C3Red, RelayOff), WriteRelay(C3Yellow, RelayOn));
        var p2 := Progress(p1.log + st[1], e[1]);
        assert Run(p1, st[1..], [], e[1..], true) == if e[1].mode == SignalLowNoise then p2 else Run(p2, st[2..], [], e[2..], true);
        if e[1].mode == SignalNormal {
          Snoc2(p2.log, WriteRelay(C3Yellow, RelayOff), WriteRelay(C3Green, RelayOn));
          var p3 := Progress(p2.log + st[2], e[2]);
          assert Run(p2, st[2..], [], e[2..], true) == if e[2].mode == SignalLowNoise then p3 else Run(p3, st[3..], [], e[3..], true);
          assert st[3..] == [] && p3.log + [] == p3.log;
        }
      }
    }
  }

  /** The last two stages of a track-car pass and its final writes, write by write. */
  lemma CarRunTail(p: Progress, e: seq<Env>)
    requires |e| == 2
    ensures Run(p, CarTable.stages[2..], CarTable.final, e, true) ==
      var l3 := p.log + [WriteRelay(TrackCar, RelayOn)] + [WriteRelay(TrackSemL, RelayOff)];
      if e[0].mode == SignalLowNoise then Progress(l3, e[0]) else
      var l4 := l3 + [WriteRelay(TrackSemL, RelayOn)] + [WriteRelay(TrackSemR, RelayOff)];
      if e[1].mode == SignalLowNoise then Progress(l4, e[1]) else
      Progress(l4 + [WriteRelay(TrackCar, RelayOff)] + [WriteRelay(TrackSemL, RelayOff)], e[1])
  {
    var st, f := CarTable.stages[2..], CarTable.final;
    Snoc2(p.log, WriteRelay(TrackCar, RelayOn), WriteRelay(TrackSemL, RelayOff));
    var p3 := Progress(p.log + st[0], e[0]);
    assert Run(p, st, f, e, true) == if e[0].mode == SignalLowNoise then p3 else Run(p3, st[1..], f, e[1..], true);
    if e[0].mode == SignalNormal {
      Snoc2(p3.log, WriteRelay(TrackSemL, RelayOn), WriteRelay(TrackSemR, RelayOff));
      var p4 := Progress(p3.log + st[1], e[1]);
      assert Run(p3, st[1..], f, e[1..], true) == if e[1].mode == SignalLowNoise then p4 else Run(p4, st[2..], f, e[2..], true);
      assert st[2..] == [];
      Snoc2(p4.log, WriteRelay(TrackCar, RelayOff), WriteRelay(TrackSemL, RelayOff));
    }
  }

  /**
   * A pass of the track-car handler, write by write: the rest writes only in
   * NORMAL mode, after every wait a LOW_NOISE mode ends the pass, and only a
   * pass that gets through all four stages does the final writes.
   */
  lemma CarPassShape(start: SignalMode, log: seq<Event>, envs: seq<Env>)
    requires |envs| == 5
    ensures HandlerPass(CarTable, start, log, envs) ==
      var l0 := log + Rest(CarTable, start);
      if envs[0].mode == SignalLowNoise then Progress(l0, envs[0]) else
      var l1 := l0 + [WriteRelay(TrackSemL, RelayOn)] + [WriteRelay(TrackSemR, RelayOn)] + [WriteRelay(TrackCar, RelayOn)];
      if envs[1].mode == SignalLowNoise then Progress(l1, envs[1]) else
      var l2 := l1 + [WriteRelay(TrackCar, RelayOff)];
      if envs[2].mode == SignalLowNoise then Progress(l2, envs[2]) else
      var l3 := l2 + [WriteRelay(TrackCar, RelayOn)] + [WriteRelay(TrackSemL, RelayOff)];
      if envs[3].mode == SignalLowNoise then Progress(l3, envs[3]) else
      var l4 := l3 + [WriteRelay(TrackSemL, RelayOn)] + [WriteRelay(TrackSemR, RelayOff)];
      if envs[4].mode == SignalLowNoise then Progress(l4, envs[4]) else
      Progress(l4 + [WriteRelay(TrackCar, RelayOff)] + [WriteRelay(TrackSemL, RelayOff)], envs[4])
  {
    var st, f, e := CarTable.stages, CarTable.final, envs[1..];
    var p0 := Progress(log + Rest(CarTable, start), envs[0]);
    if envs[0].mode == SignalNormal {
      Snoc3(p0.log, WriteRelay(TrackSemL, RelayOn), WriteRelay(TrackSemR, RelayOn), WriteRelay(TrackCar, RelayOn));
      var p1 := Progress(p0.log + st[0], e[0]);
      assert Run(p0, st, f, e, true) == if e[0].mode == SignalLowNoise then p1 else Run(p1, st[1..], f, e[1..], true);
      if e[0].mode == SignalNormal {
        var p2 := Progress(p1.log + st[1], e[1]);
        assert Run(p1, st[1..], f, e[1..], true) == if e[1].mode == SignalLowNoise then p2 else Run(p2, st[2..], f, e[2..], true);
        assert e[2..] == envs[3..] && st[1..][1..] == st[2..];
        if e[1].mode == SignalNormal {
          CarRunTail(p2, envs[3..]);
        }
      }
    }
  }

  // ---------------------------------------------------------------------
  // Wig-wags and the noise routine
  // ---------------------------------------------------------------------

  function WigWagRelay(me: Handler): RelayName
    requires me == HandleLWW || me == HandleUWW
  {
    if me == HandleLWW then LowerWW else UpperWW
  }

  /**
   * One wig-wag pass after its trigger: nothing more if the "no sound" switch
   * reads "0" or the noise routine is already latched; otherwise, if the "low
   * noise" switch reads "0", latch and trigger the noise routine first; then
   * the wig-wag relay ON.
   */
  function WigWagEvents(relay: RelayName, latched: bool, noSound: string, lowNoise: string): (e: seq<Event>)
    ensures e != [] && e[0] == WriteRelay(relay, RelayOff)
    ensures WriteRelay(relay, RelayOn) in e <==> noSound != "0" && !latched
    ensures Post(HandleNoise) in e <==> noSound != "0" && !latched && lowNoise == "0"
  {
    [WriteRelay(relay, RelayOff)] +
    if noSound == "0" || latched then []
    else (if lowNoise == "0" then [SetLatch(true), Post(HandleNoise)] else []) + [WriteRelay(relay, RelayOn)]
  }

  /** The noise routine enters LOW_NOISE, sets both semaphores and the car indicator, and the 3-colour signal to red. */
  const NoiseStart: seq<Event> := [
    SetMode(SignalLowNoise),
    WriteRelay(TrackSemL, RelayOn), WriteRelay(TrackSemR, RelayOn), WriteRelay(TrackCar, RelayOn),
    WriteRelay(C3Red, RelayOn), WriteRelay(C3Yellow, RelayOff), WriteRelay(C3Green, RelayOff)
  ]

  /** The train runs right to left past the car indicator and the two semaphores, then the 3-colour signal turns yellow. */
  const NoiseTrain: seq<Event> := [
    WriteRelay(TrackCar, RelayOff),
    WriteRelay(TrackCar, RelayOn), WriteRelay(TrackSemL, RelayOff),
    WriteRelay(TrackSemL, RelayOn), WriteRelay(TrackSemR, RelayOff),
    WriteRelay(TrackSemR, RelayOn), WriteRelay(C3Red, RelayOff), WriteRelay(C3Yellow, RelayOn)
  ]

  /** The section is clear: green, the track relays OFF, and the wig-wags may latch the routine again. */
  const NoiseClear: seq<Event> := [
    WriteRelay(C3Yellow, RelayOff), WriteRelay(C3Green, RelayOn),
    WriteRelay(TrackCar, RelayOff), WriteRelay(TrackSemL, RelayOff), WriteRelay(TrackSemR, RelayOff),
    SetLatch(false)
  ]

  /** After the last wait: green OFF and back to NORMAL. */
  const NoiseEnd: seq<Event> := [WriteRelay(C3Green, RelayOff), SetMode(SignalNormal)]

  /** The noise routine: the track-car and 3-colour signals play one train past, under LOW_NOISE. */
  const NoiseEvents: seq<Event> := NoiseStart + NoiseTrain + NoiseClear + NoiseEnd

  /** The log after the start of the noise routine, one event at a time. */
  lemma NoiseStartLog(l: seq<Event>)
    ensures l + [SetMode(SignalLowNoise)] + [WriteRelay(TrackSemL, RelayOn)] + [WriteRelay(TrackSemR, RelayOn)]
      + [WriteRelay(TrackCar, RelayOn)] + [WriteRelay(C3Red, RelayOn)] + [WriteRelay(C3Yellow, RelayOff)]
      + [WriteRelay(C3Green, RelayOff)] == l + NoiseStart
  {
  }

  /** The log after the train run of the noise routine, one event at a time. */
  lemma NoiseTrainLog(l: seq<Event>)
    ensures l + [WriteRelay(TrackCar, RelayOff)] + [WriteRelay(TrackCar, RelayOn)] + [WriteRelay(TrackSemL, RelayOff)]
      + [WriteRelay(TrackSemL, RelayOn)] + [WriteRelay(TrackSemR, RelayOff)] + [WriteRelay(TrackSemR, RelayOn)]
      + [WriteRelay(C3Red, RelayOff)] + [WriteRelay(C3Yellow, RelayOn)] == l + NoiseTrain
  {
  }

  /** The log after the noise routine clears the section, one event at a time. */
  lemma NoiseClearLog(l: seq<Event>)
    ensures l + [WriteRelay(C3Yellow, RelayOff)] + [WriteRelay(C3Green, RelayOn)] + [WriteRelay(TrackCar, RelayOff)]
      + [WriteRelay(TrackSemL, RelayOff)] + [WriteRelay(TrackSemR, RelayOff)] + [SetLatch(false)] == l + NoiseClear
  {
  }

  lemma NoiseLog(l: seq<Event>)
    ensures l + NoiseStart + NoiseTrain + NoiseClear + NoiseEnd == l + NoiseEvents
  {
  }

  /**
   * The noise routine enters LOW_NOISE before its first relay write, frees
   * the latch before its last wait, and restores NORMAL as its last action.
   */
  lemma NoiseRoutineOrder()
    ensures NoiseEvents[0] == SetMode(SignalLowNoise)
    ensures forall i :: 0 <= i < |NoiseEvents| && NoiseEvents[i].WriteRelay? ==> 0 < i < |NoiseEvents| - 1
    ensures NoiseEvents[|NoiseEvents| - 1] == SetMode(SignalNormal)
    ensures NoiseEvents[|NoiseEvents| - 3] == SetLatch(false)
  {
    assert NoiseEvents == [
      SetMode(SignalLowNoise),
      WriteRelay(TrackSemL, RelayOn), WriteRelay(TrackSemR, RelayOn), WriteRelay(TrackCar, RelayOn),
      WriteRelay(C3Red, RelayOn), WriteRelay(C3Yellow, RelayOff), WriteRelay(C3Green, RelayOff),
      WriteRelay(TrackCar, RelayOff),
      WriteRelay(TrackCar, RelayOn), WriteRelay(TrackSemL, RelayOff),
      WriteRelay(TrackSemL, RelayOn), WriteRelay(TrackSemR, RelayOff),
      WriteRelay(TrackSemR, RelayOn), WriteRelay(C3Red, RelayOff), WriteRelay(C3Yellow, RelayOn),
      WriteRelay(C3Yellow, RelayOff), WriteRelay(C3Green, RelayOn),
      WriteRelay(TrackCar, RelayOff), WriteRelay(TrackSemL, RelayOff), WriteRelay(TrackSemR, RelayOff),
      SetLatch(false),
      WriteRelay(C3Green, RelayOff),
      SetMode(SignalNormal)];
  }

  /** The noise routine leaves all three 3-colour lamps and all three track relays OFF, whatever they were before. */
  lemma NoiseRoutineEnds(relays: seq<bool>)
    requires |relays| == RelayCount
    ensures var after := ApplyEvents(relays, NoiseEvents);
      !after[Index(C3Red)] && !after[Index(C3Yellow)] && !after[Index(C3Green)] &&
      !after[Index(TrackCar)] && !after[Index(TrackSemL)] && !after[Index(TrackSemR)]
  {
    var head, tail := NoiseStart + NoiseTrain, NoiseClear + NoiseEnd;
    AppendAssoc(head, NoiseClear, NoiseEnd);
    ApplyEventsAppend(relays, head, tail);
    TrainEnds(relays, head);
    ClearEnds(ApplyEvents(relays, head), tail);
  }

  /** The train run of the noise routine ends with the 3-colour red lamp OFF. */
  lemma TrainEnds(relays: seq<bool>, head: seq<Event>)
    requires |relays| == RelayCount && head == NoiseStart + NoiseTrain
    ensures !ApplyEvents(relays, head)[Index(C3Red)]
  {
    LastWriteWins(relays, head, 13);
  }

  /** What the end of the noise routine leaves: every track relay and 3-colour lamp but red OFF, red as it was. */
  lemma ClearEnds(relays: seq<bool>, tail: seq<Event>)
    requires |relays| == RelayCount && tail == NoiseClear + NoiseEnd
    ensures var after := ApplyEvents(relays, tail);
      after[Index(C3Red)] == relays[Index(C3Red)] && !after[Index(C3Yellow)] && !after[Index(C3Green)] &&
      !after[Index(TrackCar)] && !after[Index(TrackSemL)] && !after[Index(TrackSemR)]
  {
    UnwrittenRelayKept(relays, tail, C3Red);
    LastWriteWins(relays, tail, 0);
    LastWriteWins(relays, tail, 2);
    LastWriteWins(relays, tail, 3);
    LastWriteWins(relays, tail, 4);
    LastWriteWins(relays, tail, 6);
  }

  // ---------------------------------------------------------------------
  // Input routing
  // ---------------------------------------------------------------------

  /** The handler a byte from the input pipe triggers: digits through the map, nothing otherwise. */
  function PipeTarget(c: char): (h: Option<Handler>)
    ensures h.Some? ==> IsDigit(c) && h.value == ButtonHandlerMap[c as int - '0' as int]
  {
    if '0' <= c <= '9' then
      var h := ButtonHandlerMap[c as int - '0' as int];
      if HandlerIndex(h) < HandlerIndex(HandleLast) then Some(h) else None
    else None
  }

  /** Every map entry is a real handler, so every digit triggers one. */
  lemma PipeTargetDigits(c: char)
    ensures IsDigit(c) ==> PipeTarget(c).Some?
    ensures PipeTarget(c).Some? ==> PipeTarget(c).value != HandleLast
  {
  }

  /** The handlers a sequence of pipe bytes triggers, in order. */
  function PipeTargets(bytes: string): (hs: seq<Handler>)
    ensures forall i :: 0 <= i < |hs| ==> hs[i] != HandleLast
  {
    if bytes == [] then []
    else
      var hs := PipeTargets(bytes[..|bytes| - 1]);
      match PipeTarget(bytes[|bytes| - 1])
      case Some(h) => hs + [h]
      case None => hs
  }

  function DigitCount(s: string): nat
  {
    if s == [] then 0 else DigitCount(s[..|s| - 1]) + (if IsDigit(s[|s| - 1]) then 1 else 0)
  }

  /** The pipe triggers one handler per digit it carries. */
  lemma {:induction false} PipeTargetsCount(bytes: string)
    ensures |PipeTargets(bytes)| == DigitCount(bytes)
  {
    if bytes != [] {
      PipeTargetsCount(bytes[..|bytes| - 1]);
      PipeTargetDigits(bytes[|bytes| - 1]);
    }
  }

  function PostEvents(hs: seq<Handler>): (es: seq<Event>)
    ensures |es| == |hs| && forall i :: 0 <= i < |hs| ==> es[i] == Post(hs[i])
  {
    if hs == [] then [] else PostEvents(hs[..|hs| - 1]) + [Post(hs[|hs| - 1])]
  }

  /** Number of times `h` occurs in `hs`. */
  function Occurrences(hs: seq<Handler>, h: Handler): nat
  {
    if hs == [] then 0 else Occurrences(hs[..|hs| - 1], h) + (if hs[|hs| - 1] == h then 1 else 0)
  }

  /** What one pipe byte adds to the log: the post to its handler, if it has one. */
  function ByteEvents(c: char): seq<Event>
  {
    if PipeTarget(c).Some? then [Post(PipeTarget(c).value)] else []
  }

  /** One more pipe byte adds its own post to the log and one trigger to its handler's count. */
  lemma InputStep(bytes: string, i: nat)
    requires i < |bytes|
    ensures PostEvents(PipeTargets(bytes[..i + 1])) == PostEvents(PipeTargets(bytes[..i])) + ByteEvents(bytes[i])
    ensures forall h ::
      Occurrences(PipeTargets(bytes[..i + 1]), h) == Occurrences(PipeTargets(bytes[..i]), h) + (if PipeTarget(bytes[i]) == Some(h) then 1 else 0)
  {
    assert bytes[..i + 1][..i] == bytes[..i];
    var hs := PipeTargets(bytes[..i]);
    if PipeTarget(bytes[i]).Some? {
      assert (hs + [PipeTarget(bytes[i]).value])[..|hs|] == hs;
    }
  }

  /** The handler a `b<x>` control command triggers. */
  function ButtonTarget(button: char): (h: Option<Handler>)
    ensures h.Some? <==> button in "123456789nN"
    ensures h.Some? ==> h.value != HandleLast
  {
    match button
    case '1' => Some(HandleH2)
    case '2' => Some(HandleW4)
    case '3' => Some(HandleC3)
    case '4' => Some(HandleC3)
    case '6' => Some(HandleC3)
    case '5' => Some(HandleCar)
    case '7' => Some(HandleLWW)
    case '8' => Some(HandleBell)
    case '9' => Some(HandleUWW)
    case 'n' => Some(HandleNoise)
    case 'N' => Some(HandleNoise)
    case _ => None
  }

  /**
   * Keys 1-5 and 7 of `b<x>` trigger the same handler as the pipe digit one
   * lower; keys 6, 8 and 9 do not (6 is C3 where pipe 5 is the bell, 8 the
   * bell where pipe 7 is the upper wig-wag, 9 the upper wig-wag where pipe 8
   * is H2).
   */
  lemma ButtonKeys(button: char)
    ensures button in "123457" ==> ButtonTarget(button) == PipeTarget((button as int - 1) as char)
    ensures button in "689" ==> ButtonTarget(button) != PipeTarget((button as int - 1) as char)
  {
  }

  // ---------------------------------------------------------------------
  // Lamp test, status and help
  // ---------------------------------------------------------------------

  const LampTestRelays: seq<RelayName> := [
    H2Relay, W4Red, W4Yellow, W4Green, C3Red, C3Yellow, C3Green, TrackSemL, TrackSemR, TrackCar
  ]

  function LampTestEvents(): (es: seq<Event>)
    ensures |es| == |LampTestRelays|
    ensures forall i :: 0 <= i < |es| ==> es[i] == WriteRelay(LampTestRelays[i], RelayOn)
  {
    seq(|LampTestRelays|, i requires 0 <= i < |LampTestRelays| => WriteRelay(LampTestRelays[i], RelayOn))
  }

  /** After writes that all turn relays ON, a relay is ON exactly when one of them wrote it or it was ON before. */
  lemma {:induction false} OnWritesLight(relays: seq<bool>, es: seq<Event>, r: RelayName)
    requires |relays| == RelayCount
    requires forall i :: 0 <= i < |es| ==> es[i].WriteRelay? && es[i].state == RelayOn
    ensures ApplyEvents(relays, es)[Index(r)] == (WriteRelay(r, RelayOn) in es || relays[Index(r)])
    decreases |es|
  {
    if es != [] {
      var init, last := es[..|es| - 1], es[|es| - 1];
      OnWritesLight(relays, init, r);
      assert es == init + [last];
      if last.relay != r {
        assert Index(last.relay) != Index(r);
      }
    }
  }

  /** The lamp test turns exactly ten relays ON and leaves the other six as they were. */
  lemma LampTestLightsTen(relays: seq<bool>, r: RelayName)
    requires |relays| == RelayCount
    ensures |LampTestRelays| == 10 && Bell !in LampTestRelays && UpperWW !in LampTestRelays && LowerWW !in LampTestRelays
    ensures ApplyEvents(relays, LampTestEvents())[Index(r)] == (r in LampTestRelays || relays[Index(r)])
  {
    LampTestWrites(relays, LampTestEvents(), r);
  }

  lemma LampTestWrites(relays: seq<bool>, es: seq<Event>, r: RelayName)
    requires |relays| == RelayCount && es == LampTestEvents()
    ensures ApplyEvents(relays, es)[Index(r)] == (r in LampTestRelays || relays[Index(r)])
  {
    OnWritesLight(relays, es, r);
    if r in LampTestRelays {
      var k :| 0 <= k < |LampTestRelays| && LampTestRelays[k] == r;
      assert es[k] == WriteRelay(r, RelayOn);
    }
  }

  const HelpText: string :=
    "s -- Status\nr -- reset\ni -- IP addr -- to console\nt -- lamp test\nb<x> -- Push button x\nx -- Exit\n"

  function RelayLine(i: nat, reading: string): string
    requires i < RelayCount
  {
    "Relay " + IntToDec(i) + ":[" + Label(Name(i)) + "] state " + reading
  }

  function GpioLine(i: nat, reading: string): string
  {
    "GPIO " + IntToDec(i) + " state " + reading
  }

  /** Number of relays the status listing reports: 0 up to and including `LAST_RELAY`. */
  const StatusRelays: nat := Index(LastRelay) + 1

  /** The lines of the status listing: relays 0..`LAST_RELAY`, then GPIO 0 and 1. */
  function StatusLines(readings: seq<string>, gpio: seq<string>): (ls: seq<string>)
    requires |readings| == StatusRelays && |gpio| == 2
    ensures |ls| == StatusRelays + 2
  {
    seq(StatusRelays, i requires 0 <= i < StatusRelays => RelayLine(i, readings[i])) +
    [GpioLine(0, gpio[0]), GpioLine(1, gpio[1])]
  }

  lemma NoLineFeedInNumber(n: nat)
    ensures '\n' !in IntToDec(n)
  {
    var d := NatToDec(n);
    assert forall i :: 0 <= i < |d| ==> IsDigit(d[i]);
  }

  lemma RelayLineNoBreak(i: nat, reading: string)
    requires i < RelayCount && '\n' !in reading
    ensures '\n' !in RelayLine(i, reading)
  {
    NoLineFeedInNumber(i);
    LabelsOneLine();
  }

  lemma GpioLineNoBreak(i: nat, reading: string)
    requires '\n' !in reading
    ensures '\n' !in GpioLine(i, reading)
  {
    NoLineFeedInNumber(i);
  }

  /**
   * The status text splits back into its lines, one per relay then one per
   * GPIO, as long as the board's readings hold no line feed (which a
   * successful query guarantees).
   */
  lemma StatusParses(readings: seq<string>, gpio: seq<string>)
    requires |readings| == StatusRelays && |gpio| == 2
    requires forall i :: 0 <= i < |readings| ==> '\n' !in readings[i]
    requires '\n' !in gpio[0] && '\n' !in gpio[1]
    ensures SplitLines(JoinLines(StatusLines(readings, gpio))) == StatusLines(readings, gpio)
    ensures forall i :: 0 <= i < StatusRelays ==>
      SplitLines(JoinLines(StatusLines(readings, gpio)))[i] == "Relay " + IntToDec(i) + ":[" + Label(Name(i)) + "] state " + readings[i]
  {
    var ls := StatusLines(readings, gpio);
    forall i | 0 <= i < |ls|
      ensures '\n' !in ls[i]
    {
      if i < StatusRelays {
        RelayLineNoBreak(i, readings[i]);
      } else {
        GpioLineNoBreak(i - StatusRelays, gpio[i - StatusRelays]);
      }
    }
    SplitJoin(ls);
  }

  /** The status listing, built line by line as the program writes it. */
  method Status(readings: seq<string>, gpio: seq<string>) returns (s: string)
    requires |readings| == StatusRelays && |gpio| == 2
    ensures s == JoinLines(StatusLines(readings, gpio))
  {
    var ls := StatusLines(readings, gpio);
    s := "";
    var i := 0;
    while i < StatusRelays
      invariant 0 <= i <= StatusRelays
      invariant s == JoinLines(ls[..i])
    {
      JoinLinesAppend(ls[..i], ls[i]);
      assert ls[..i + 1] == ls[..i] + [ls[i]];
      s := s + ("Relay " + IntToDec(i) + ":[" + Label(Name(i)) + "] state " + readings[i]) + "\n";
      i := i + 1;
    }
    for g := 0 to 2
      invariant s == JoinLines(ls[..StatusRelays + g])
    {
      JoinLinesAppend(ls[..StatusRelays + g], ls[StatusRelays + g]);
      assert ls[..StatusRelays + g + 1] == ls[..StatusRelays + g] + [ls[StatusRelays + g]];
      s := s + ("GPIO " + IntToDec(g) + " state " + gpio[g]) + "\n";
    }
    assert ls[..StatusRelays + 2] == ls;
  }

  /** The handler a control command posts to: `b<x>` with a known key `x`. */
  function CmdButton(cmd: string): Option<Handler>
  {
    if |cmd| > 0 && cmd[0] == 'b' then ButtonTarget(if |cmd| > 1 then cmd[1] else '\0') else None
  }

  /** The reply to a control command; `Aborted` is the `abort()` after a reset. */
  datatype CmdReply = Reply(text: string) | Aborted

  // ---------------------------------------------------------------------
  // The garden
  // ---------------------------------------------------------------------

  /** An entry of the handler table: which handler it is, and its semaphore's count of pending triggers. */
  class HandlerInfo {
    const id: Handler
    var sem: nat

    constructor(id: Handler)
      ensures this.id == id && sem == 0
    {
      this.id := id;
      sem := 0;
    }
  }

  class Garden {
    /** The handler table, by handler index. */
    const handlers: seq<HandlerInfo>
    var mode: SignalMode
    var lowNoiseActive: bool
    /** Every command sent to the relay board and every change to the shared state, in order. */
    var log: seq<Event>

    /** Entry `i` of the handler table belongs to the handler with index `i`. */
    ghost predicate Valid()
    {
      |handlers| == HandlerCount &&
      forall i :: 0 <= i < HandlerCount ==> HandlerIndex(handlers[i].id) == i
    }

    /** The table entry of a handler. */
    function Entry(h: Handler): (e: HandlerInfo)
      requires Valid() && h != HandleLast
      ensures e.id == h
    {
      handlers[HandlerIndex(h)]
    }

    /** The trigger counter a `b<x>` command changes: that of the key's handler, if any. */
    ghost function Posted(h: Option<Handler>): set<object>
      requires Valid()
    {
      if h.Some? && h.value != HandleLast then {Entry(h.value)} else {}
    }

    /** The relay outputs: start-up resets the board, then the logged commands apply in order. */
    ghost function Relays(): (r: seq<bool>)
      reads this
      ensures |r| == RelayCount
    {
      ApplyEvents(AllOff, log)
    }

    /** Start-up: the board reset turns every relay OFF; no trigger is pending; NORMAL mode. */
    constructor()
      ensures Valid()
      ensures forall h :: h != HandleLast ==> Entry(h).sem == 0
      ensures log == [BoardReset] && Relays() == AllOff
      ensures mode == SignalNormal && !lowNoiseActive
    {
      var h2 := new HandlerInfo(HandleH2);
      var w4 := new HandlerInfo(HandleW4);
      var c3 := new HandlerInfo(HandleC3);
      var car := new HandlerInfo(HandleCar);
      var lww := new HandlerInfo(HandleLWW);
      var bell := new HandlerInfo(HandleBell);
      var uww := new HandlerInfo(HandleUWW);
      var noise := new HandlerInfo(HandleNoise);
      handlers := [h2, w4, c3, car, lww, bell, uww, noise];
      mode := SignalNormal;
      lowNoiseActive := false;
      log := [BoardReset];
      new;
      assert log[..0] == [];
    }

    /** `relay`: one command to the board. */
    method Write(r: RelayName, s: RelayState)
      modifies this`log
      ensures log == old(log) + [WriteRelay(r, s)]
    {
      log := log + [WriteRelay(r, s)];
    }

    /** `sem_clear`: take pending triggers one at a time until none is left. */
    method SemClear(me: HandlerInfo)
      modifies me
      ensures me.sem == 0
    {
      while me.sem > 0
        decreases me.sem
      {
        me.sem := me.sem - 1;
      }
    }

    /** `push`: post one trigger to a handler. */
    method Push(h: Handler) returns (reply: string)
      requires Valid() && h != HandleLast
      modifies this`log, Entry(h)
      ensures reply == "OK"
      ensures Entry(h).sem == old(Entry(h).sem) + 1
      ensures log == old(log) + [Post(h)]
    {
      var e := handlers[HandlerIndex(h)];
      e.sem := e.sem + 1;
      log := log + [Post(h)];
      reply := "OK";
    }

    /**
     * `sem_wait` and `sem_wait_time`: block until a trigger comes and take
     * it, or (timed) until the time runs out; `env` is what the other
     * threads left behind when the wait returns.
     */
    method Wait(me: HandlerInfo, env: Env)
      modifies this`mode, this`lowNoiseActive, me
      ensures me.sem == env.left
      ensures mode == env.mode && lowNoiseActive == env.lowNoise
    {
      me.sem := env.left;
      mode := env.mode;
      lowNoiseActive := env.lowNoise;
    }

    /** One pass of the H2 handler: OFF, wait for a trigger, ON until the next trigger or the timeout. */
    method HandleH2Pass(me: HandlerInfo, envs: seq<Env>)
      requires |envs| == 2
      modifies this, me
      ensures var p := HandlerPass(H2Table, old(mode), old(log), envs);
        log == p.log && me.sem == p.seen.left &&
        mode == p.seen.mode && lowNoiseActive == p.seen.lowNoise
    {
      H2PassShape(mode, log, envs);
      Write(H2Relay, RelayOff);
      SemClear(me);
      Wait(me, envs[0]);
      Write(H2Relay, RelayOn);
      Wait(me, envs[1]);
    }

    /** One pass of the 4-white handler: rest on yellow, then red, yellow, green, each until the next trigger or the timeout. */
    method HandleW4Pass(me: HandlerInfo, envs: seq<Env>)
      requires |envs| == 4
      modifies this, me
      ensures var p := HandlerPass(W4Table, old(mode), old(log), envs);
        log == p.log && me.sem == p.seen.left &&
        mode == p.seen.mode && lowNoiseActive == p.seen.lowNoise
    {
      W4PassShape(mode, log, envs);
      SemClear(me);
      Write(W4Red, RelayOff);
      Write(W4Yellow, RelayOn);
      Write(W4Green, RelayOff);
      Wait(me, envs[0]);
      Write(W4Red, RelayOn);
      Write(W4Yellow, RelayOff);
      Wait(me, envs[1]);
      Write(W4Red, RelayOff);
      Write(W4Yellow, RelayOn);
      Wait(me, envs[2]);
      Write(W4Yellow, RelayOff);
      Write(W4Green, RelayOn);
      Wait(me, envs[3]);
    }

    /** The 3-colour rest state, all OFF, written only in NORMAL mode. */
    method C3Rest()
      modifies this`log
      ensures log == old(log) + Rest(C3Table, mode)
    {
      if mode == SignalNormal {
        Write(C3Red, RelayOff);
        Write(C3Yellow, RelayOff);
        Write(C3Green, RelayOff);
        Snoc3(old(log), WriteRelay(C3Red, RelayOff), WriteRelay(C3Yellow, RelayOff), WriteRelay(C3Green, RelayOff));
      }
    }

    /** One pass of the 3-colour handler: rest all OFF (in NORMAL mode), then red, yellow, green; LOW_NOISE abandons it. */
    method HandleC3Pass(me: HandlerInfo, envs: seq<Env>)
      requires |envs| == 4
      modifies this, me
      ensures var p := HandlerPass(C3Table, old(mode), old(log), envs);
        log == p.log && me.sem == p.seen.left &&
        mode == p.seen.mode && lowNoiseActive == p.seen.lowNoise
    {
      C3PassShape(mode, log, envs);
      SemClear(me);
      C3Rest();
      Wait(me, envs[0]);
      if mode == SignalLowNoise {
        return;
      }
      Write(C3Red, RelayOn);
      Wait(me, envs[1]);
      if mode == SignalLowNoise {
        return;
      }
      Write(C3Red, RelayOff);
      Write(C3Yellow, RelayOn);
      Wait(me, envs[2]);
      if mode == SignalLowNoise {
        return;
      }
      Write(C3Yellow, RelayOff);
      Write(C3Green, RelayOn);
      Wait(me, envs[3]);
    }

    /** The track-car rest state, both semaphores and the car OFF, written only in NORMAL mode. */
    method CarRest()
      modifies this`log
      ensures log == old(log) + Rest(CarTable, mode)
    {
      if mode == SignalNormal {
        Write(TrackSemL, RelayOff);
        Write(TrackSemR, RelayOff);
        Write(TrackCar, RelayOff);
        Snoc3(old(log), WriteRelay(TrackSemL, RelayOff), WriteRelay(TrackSemR, RelayOff), WriteRelay(TrackCar, RelayOff));
      }
    }

    /** One pass of the track-car handler: the train runs right to left past two semaphores; LOW_NOISE abandons it. */
    method HandleCarPass(me: HandlerInfo, envs: seq<Env>)
      requires |envs| == 5
      modifies this, me
      ensures var p := HandlerPass(CarTable, old(mode), old(log), envs);
        log == p.log && me.sem == p.seen.left &&
        mode == p.seen.mode && lowNoiseActive == p.seen.lowNoise
    {
      CarPassShape(mode, log, envs);
      SemClear(me);
      CarRest();
      Wait(me, envs[0]);
      if mode == SignalLowNoise {
        return;
      }
      Write(TrackSemL, RelayOn);
      Write(TrackSemR, RelayOn);
      Write(TrackCar, RelayOn);
      Wait(me, envs[1]);
      if mode == SignalLowNoise {
        return;
      }
      Write(TrackCar, RelayOff);
      Wait(me, envs[2]);
      if mode == SignalLowNoise {
        return;
      }
      Write(TrackCar, RelayOn);
      Write(TrackSemL, RelayOff);
      Wait(me, envs[3]);
      if mode == SignalLowNoise {
        return;
      }
      Write(TrackSemL, RelayOn);
      Write(TrackSemR, RelayOff);
      Wait(me, envs[4]);
      if mode == SignalLowNoise {
        return;
      }
      Write(TrackCar, RelayOff);
      Write(TrackSemL, RelayOff);
    }

    /**
     * One pass of a wig-wag handler; `noSound` and `lowNoise` are what the
     * board answers for GPIO 0 and GPIO 1 after the trigger.
     */
    method GenericWWPass(h: Handler, env: Env, noSound: string, lowNoise: string)
      requires Valid() && (h == HandleLWW || h == HandleUWW)
      modifies this, Entry(h), Entry(HandleNoise)
      ensures log == old(log) + WigWagEvents(WigWagRelay(h), env.lowNoise, noSound, lowNoise)
      ensures mode == env.mode
      ensures lowNoiseActive == (env.lowNoise || (noSound != "0" && lowNoise == "0"))
      ensures Entry(h).sem == env.left
      ensures Entry(HandleNoise).sem ==
        old(Entry(HandleNoise).sem) + if noSound != "0" && !env.lowNoise && lowNoise == "0" then 1 else 0
    {
      var me := handlers[HandlerIndex(h)];
      var relay := WigWagRelay(h);
      SemClear(me);
      Write(relay, RelayOff);
      Wait(me, env);
      if noSound == "0" {
        return;
      }
      if lowNoiseActive {
        return;
      }
      if lowNoise == "0" {
        lowNoiseActive := true;
        log := log + [SetLatch(true)];
        var _ := Push(HandleNoise);
      }
      Write(relay, RelayOn);
    }

    /** One pass of the noise routine after its trigger. */
    method HandleNoisePass(me: HandlerInfo, env: Env)
      modifies this, me
      ensures log == old(log) + NoiseEvents
      // The flag is clear at the end only because the routine's sleeps are
      // not modelled as waits: in the program another thread may set it
      // again while this routine sleeps after clearing it.
      ensures mode == SignalNormal && !lowNoiseActive
      ensures me.sem == env.left
    {
      SemClear(me);
      Wait(me, env);
      ghost var b0 := log;
      NoiseOpen();
      NoiseRun();
      NoiseRelease();
      NoiseClose();
      NoiseLog(b0);
    }

    /** The noise routine enters LOW_NOISE and sets the track and 3-colour relays for a train. */
    method NoiseOpen()
      modifies this`log, this`mode
      ensures mode == SignalLowNoise && log == old(log) + NoiseStart
    {
      ghost var b := log;
      mode := SignalLowNoise;
      log := log + [SetMode(SignalLowNoise)];
      Write(TrackSemL, RelayOn);
      Write(TrackSemR, RelayOn);
      Write(TrackCar, RelayOn);
      Write(C3Red, RelayOn);
      Write(C3Yellow, RelayOff);
      Write(C3Green, RelayOff);
      NoiseStartLog(b);
    }

    /** The train runs past the car indicator and both semaphores. */
    method NoiseRun()
      modifies this`log
      ensures log == old(log) + NoiseTrain
    {
      ghost var b := log;
      Write(TrackCar, RelayOff);
      Write(TrackCar, RelayOn);
      Write(TrackSemL, RelayOff);
      Write(TrackSemL, RelayOn);
      Write(TrackSemR, RelayOff);
      Write(TrackSemR, RelayOn);
      Write(C3Red, RelayOff);
      Write(C3Yellow, RelayOn);
      NoiseTrainLog(b);
    }

    /** The section is clear: green, the track relays OFF, and the latch released. */
    method NoiseRelease()
      modifies this`log, this`lowNoiseActive
      ensures !lowNoiseActive && log == old(log) + NoiseClear
    {
      ghost var b := log;
      Write(C3Yellow, RelayOff);
      Write(C3Green, RelayOn);
      Write(TrackCar, RelayOff);
      Write(TrackSemL, RelayOff);
      Write(TrackSemR, RelayOff);
      lowNoiseActive := false;
      log := log + [SetLatch(false)];
      NoiseClearLog(b);
    }

    /** Green OFF and back to NORMAL. */
    method NoiseClose()
      modifies this`log, this`mode
      ensures mode == SignalNormal && log == old(log) + NoiseEnd
    {
      ghost var b := log;
      Write(C3Green, RelayOff);
      mode := SignalNormal;
      log := log + [SetMode(SignalNormal)];
      Snoc2(b, WriteRelay(C3Green, RelayOff), SetMode(SignalNormal));
    }

    /** The input thread: each pipe byte `'0'..'9'` posts one trigger to its mapped handler. */
    method InputThread(bytes: string)
      requires Valid()
      modifies this`log, handlers
      ensures log == old(log) + PostEvents(PipeTargets(bytes))
      ensures forall h :: h != HandleLast ==> Entry(h).sem == old(Entry(h).sem) + Occurrences(PipeTargets(bytes), h)
    {
      for i := 0 to |bytes|
        invariant log == old(log) + PostEvents(PipeTargets(bytes[..i]))
        invariant forall h :: h != HandleLast ==> Entry(h).sem == old(Entry(h).sem) + Occurrences(PipeTargets(bytes[..i]), h)
      {
        InputStep(bytes, i);
        AppendAssoc(old(log), PostEvents(PipeTargets(bytes[..i])), ByteEvents(bytes[i]));
        InputByte(bytes[i]);
      }
      assert bytes[..|bytes|] == bytes;
    }

    /** One byte from the input pipe: a digit posts one trigger to its mapped handler. */
    method InputByte(ch: char)
      requires Valid()
      modifies this`log, handlers
      ensures log == old(log) + ByteEvents(ch)
      ensures forall h :: h != HandleLast ==> Entry(h).sem == old(Entry(h).sem) + if PipeTarget(ch) == Some(h) then 1 else 0
    {
      if '0' <= ch <= '9' {
        var handler := ButtonHandlerMap[ch as int - '0' as int];
        if HandlerIndex(handler) < HandlerIndex(HandleLast) {
          var _ := Push(handler);
        }
      }
    }

    /** `do_button`: the `b<x>` command. */
    method DoButton(button: char) returns (reply: string)
      requires Valid()
      modifies this, Posted(ButtonTarget(button))
      ensures mode == old(mode) && lowNoiseActive == old(lowNoiseActive)
      ensures match ButtonTarget(button)
        case Some(h) =>
          reply == "OK" && log == old(log) + [Post(h)] && Entry(h).sem == old(Entry(h).sem) + 1
        case None =>
          reply == "Unknown button" && log == old(log)
    {
      match button
      case '1' => reply := Push(HandleH2);
      case '2' => reply := Push(HandleW4);
      case '3' => reply := Push(HandleC3);
      case '4' => reply := Push(HandleC3);
      case '6' => reply := Push(HandleC3);
      case '5' => reply := Push(HandleCar);
      case '7' => reply := Push(HandleLWW);
      case '8' => reply := Push(HandleBell);
      case '9' => reply := Push(HandleUWW);
      case 'n' => reply := Push(HandleNoise);
      case 'N' => reply := Push(HandleNoise);
      case _ => reply := "Unknown button";
    }

    /** `lamp_test`: turn every signal lamp ON. */
    method LampTest()
      modifies this
      ensures log == old(log) + LampTestEvents()
      ensures mode == old(mode) && lowNoiseActive == old(lowNoiseActive)
    {
      Write(H2Relay, RelayOn);
      Write(W4Red, RelayOn);
      Write(W4Yellow, RelayOn);
      Write(W4Green, RelayOn);
      Write(C3Red, RelayOn);
      Write(C3Yellow, RelayOn);
      Write(C3Green, RelayOn);
      Write(TrackSemL, RelayOn);
      Write(TrackSemR, RelayOn);
      Write(TrackCar, RelayOn);
    }

    /**
     * `do_cmd`: one control command. `ip` is the address of the wireless
     * interface, `readings` and `gpio` are the board's answers for the status
     * listing. A missing second character reads as the string terminator.
     */
    method DoCmd(cmd: string, ip: string, readings: seq<string>, gpio: seq<string>) returns (reply: CmdReply)
      requires Valid() && |readings| == StatusRelays && |gpio| == 2
      modifies this, Posted(CmdButton(cmd))
      ensures mode == old(mode) && lowNoiseActive == old(lowNoiseActive)
      ensures var c := if |cmd| > 0 then cmd[0] else '\0';
        if c == 'r' then reply == Aborted && log == old(log) + [BoardReset] && Relays() == AllOff
        else if c == 'i' then reply == Reply(ip + "\n") && log == old(log)
        else if c == 't' then reply == Reply("OK") && log == old(log) + LampTestEvents()
        else if c == 'b' then
          match CmdButton(cmd)
          case Some(h) => reply == Reply("OK") && log == old(log) + [Post(h)] && Entry(h).sem == old(Entry(h).sem) + 1
          case None => reply == Reply("Unknown button") && log == old(log)
        else if c == 's' then reply == Reply(JoinLines(StatusLines(readings, gpio))) && log == old(log)
        else reply == Reply(HelpText) && log == old(log)
    {
      var c := if |cmd| > 0 then cmd[0] else '\0';
      match c
      case 'r' =>
        log := log + [BoardReset];
        reply := Aborted;
      case 'i' =>
        reply := Reply(ip + "\n");
      case 't' =>
        LampTest();
        reply := Reply("OK");
      case 'b' =>
        var text := DoButton(if |cmd| > 1 then cmd[1] else '\0');
        reply := Reply(text);
      case 's' =>
        var text := Status(readings, gpio);
        reply := Reply(text);
      case _ =>
        reply := Reply(HelpText);
    }
  }
}
