/**
 * The garden's power scheduler. Every pass of its loop picks the power
 * state wanted now, from the two override switches or else from the hour,
 * and acts only when that differs from the state it last set.
 *
 * A pin reads 0 when its switch is asserted. The hour is what `localtime`
 * gives for the time of the pass. Killing and starting programs, the
 * control pin, the log and the sleeps are recorded as actions.
 */
module Power {
  import opened Text

  const StartHour: int := 8
  const StopHour: int := 19

  datatype PowerState = Unknown | On | Off

  /** What one pass sees: the power-on and power-off override pins, and the hour. */
  datatype Sample = Sample(onPin: int, offPin: int, hour: int)

  /** The state a pass wants and the modifier its log message carries. */
  datatype Decision = Decision(state: PowerState, modifier: string)

  const Forced: string := "[forced]"
  const Scheduled: string := "[scheduled]"

  /**
   * The choice of new state: the power-on override, then the power-off
   * override (so it wins when both are asserted), then the schedule.
   */
  function Decide(s: Sample): (d: Decision)
    ensures d.state != Unknown
    ensures d.modifier == Forced || d.modifier == Scheduled
  {
    var d0 := if s.onPin == 0 then Decision(On, Forced) else Decision(Unknown, "none");
    var d1 := if s.offPin == 0 then Decision(Off, Forced) else d0;
    if d1.state != Unknown then d1
    else if s.hour < StartHour || s.hour >= StopHour then Decision(Off, Scheduled)
    else Decision(On, Scheduled)
  }

  /**
   * An asserted power-off switch always gives OFF; a power-on switch alone
   * gives ON; with neither, the garden is on from 8:00 until 19:00.
   */
  lemma DecideRules(s: Sample)
    ensures s.offPin == 0 ==> Decide(s) == Decision(Off, Forced)
    ensures s.offPin != 0 && s.onPin == 0 ==> Decide(s) == Decision(On, Forced)
    ensures s.offPin != 0 && s.onPin != 0 ==>
      Decide(s).modifier == Scheduled && (Decide(s).state == On <==> StartHour <= s.hour < StopHour)
  {
  }

  /** What a pass does, in order. */
  datatype Action =
    | KillGarden
    | WriteControl(level: int)
    | Log(message: string)
    | StartGarden
    | StartButton
    | SleepSeconds(seconds: nat)

  const ChangingPrefix: string := "Changing state to "

  /** The log message for a change: the state's name, then the modifier, with no space between. */
  function ChangeMessage(state: PowerState, modifier: string): (msg: string)
    requires state != Unknown
    ensures |msg| >= |ChangingPrefix| + |modifier|
    ensures msg[..|ChangingPrefix|] == ChangingPrefix && msg[|msg| - |modifier|..] == modifier
  {
    ChangingPrefix + (if state == On then "on" else "off") + modifier
  }

  /** A change message tells which state was set and why. */
  lemma ChangeMessageTells(s1: PowerState, m1: string, s2: PowerState, m2: string)
    requires s1 != Unknown && s2 != Unknown
    requires m1 == Forced || m1 == Scheduled
    requires m2 == Forced || m2 == Scheduled
    requires ChangeMessage(s1, m1) == ChangeMessage(s2, m2)
    ensures s1 == s2 && m1 == m2
  {
    var a, b := ChangeMessage(s1, m1), ChangeMessage(s2, m2);
    var n := |ChangingPrefix|;
    assert a[n + 1] == (if s1 == On then 'n' else 'f');
    assert b[n + 1] == (if s2 == On then 'n' else 'f');
    var k := n + (if s1 == On then 2 else 3);
    assert a[k..] == m1 && b[k..] == m2;
  }

  /**
   * The actions of a pass that finds the power in `prev` and wants `d`:
   * every pass ends with its one-second sleep, and a change starts by
   * raising the control pin (on) or by killing the garden (off).
   */
  function PassActions(prev: PowerState, d: Decision): (acts: seq<Action>)
    requires d.state != Unknown
    ensures acts != [] && acts[|acts| - 1] == SleepSeconds(1)
    ensures d.state != prev ==> acts[0] == (if d.state == On then WriteControl(1) else KillGarden)
  {
    if d.state == prev then [SleepSeconds(1)]
    else
      (if d.state == On then [WriteControl(1)] else [KillGarden, WriteControl(0)]) +
      [Log(ChangeMessage(d.state, d.modifier)), SleepSeconds(20)] +
      (if d.state == On then [StartGarden, StartButton, SleepSeconds(10)] else []) +
      [Log("Power sleep done"), SleepSeconds(1)]
  }

  /** The position of the first `x` in `acts`, or `|acts|`. */
  function FirstAt(acts: seq<Action>, x: Action): (i: nat)
    ensures i <= |acts|
    ensures i < |acts| ==> acts[i] == x
    ensures forall j | 0 <= j < i :: acts[j] != x
  {
    if acts == [] then 0 else if acts[0] == x then 0 else 1 + FirstAt(acts[1..], x)
  }

  /** A pass does something beyond its one-second sleep exactly when the wanted state is new. */
  lemma ActsOnlyOnChange(prev: PowerState, d: Decision)
    requires d.state != Unknown
    ensures PassActions(prev, d) == [SleepSeconds(1)] <==> d.state == prev
    ensures d.state != prev ==> Log(ChangeMessage(d.state, d.modifier)) in PassActions(prev, d)
  {
    if d.state != prev {
      assert PassActions(prev, d)[0] != SleepSeconds(1);
    }
  }

  /**
   * Turning off kills the garden before the control pin drops and starts
   * nothing; turning on raises the pin first, then starts the garden, then
   * the button reader, and kills nothing.
   */
  lemma SwitchOrder(prev: PowerState, d: Decision)
    requires d.state != Unknown && d.state != prev
    ensures var acts := PassActions(prev, d);
      d.state == Off ==>
        FirstAt(acts, KillGarden) < FirstAt(acts, WriteControl(0)) < |acts| &&
        StartGarden !in acts && StartButton !in acts && WriteControl(1) !in acts
    ensures var acts := PassActions(prev, d);
      d.state == On ==>
        FirstAt(acts, WriteControl(1)) < FirstAt(acts, StartGarden) < FirstAt(acts, StartButton) < |acts| &&
        KillGarden !in acts && WriteControl(0) !in acts
  {
    var acts := PassActions(prev, d);
    if d.state == Off {
      assert acts[0] == KillGarden && acts[1] == WriteControl(0);
      assert FirstAt(acts, KillGarden) == 0;
      assert acts[0] != WriteControl(0);
      assert FirstAt(acts, WriteControl(0)) == 1;
    } else {
      assert acts[0] == WriteControl(1) && acts[3] == StartGarden && acts[4] == StartButton;
      assert FirstAt(acts, WriteControl(1)) == 0;
      assert FirstAt(acts, StartGarden) == 3;
      assert FirstAt(acts, StartButton) == 4;
    }
  }

  /** The power state and actions after a run of passes over `samples`. */
  datatype RunResult = RunResult(state: PowerState, actions: seq<Action>)

  /** A run of passes: at least one action per sample, the last being the final pass's one-second sleep. */
  function RunFrom(prev: PowerState, samples: seq<Sample>): (r: RunResult)
    ensures |r.actions| >= |samples|
    ensures samples != [] ==> r.actions[|r.actions| - 1] == SleepSeconds(1)
    decreases |samples|
  {
    if samples == [] then RunResult(prev, [])
    else
      var d := Decide(samples[0]);
      var rest := RunFrom(d.state, samples[1..]);
      RunResult(rest.state, PassActions(prev, d) + rest.actions)
  }

  /**
   * After any non-empty run the power is in the state the last pass wanted,
   * which is never UNKNOWN.
   */
  lemma {:induction false} RunEndsAsLastWanted(prev: PowerState, samples: seq<Sample>)
    requires samples != []
    ensures RunFrom(prev, samples).state == Decide(samples[|samples| - 1]).state != Unknown
    decreases |samples|
  {
    if |samples| > 1 {
      RunEndsAsLastWanted(Decide(samples[0]).state, samples[1..]);
    }
  }

  /**
   * The first pass from the initial UNKNOWN state always changes the state;
   * a second pass that wants the same state does nothing but sleep.
   */
  lemma FirstPassChanges(s: Sample, t: Sample)
    requires Decide(t).state == Decide(s).state
    ensures PassActions(Unknown, Decide(s)) != [SleepSeconds(1)]
    ensures RunFrom(Unknown, [s, t]).actions == PassActions(Unknown, Decide(s)) + [SleepSeconds(1)]
  {
    ActsOnlyOnChange(Unknown, Decide(s));
    assert [s, t][1..] == [t];
    assert [t][1..] == [];
    assert RunFrom(Decide(s).state, [t]).actions == [SleepSeconds(1)];
  }

  /** The scheduler: the state it last set, and what it has done. */
  class PowerSwitch {
    var powerState: PowerState
    var actions: seq<Action>

    constructor()
      ensures powerState == Unknown && actions == []
    {
      powerState, actions := Unknown, [];
    }

    /** One pass of the loop in `main`. */
    method Pass(s: Sample)
      modifies this
      ensures powerState == Decide(s).state
      ensures actions == old(actions) + PassActions(old(powerState), Decide(s))
    {
      var d := Decide(s);
      var acts: seq<Action> := [];
      if d.state != powerState {
        if d.state == On {
          acts := acts + [WriteControl(1)];
        } else {
          acts := acts + [KillGarden, WriteControl(0)];
        }
        acts := acts + [Log(ChangeMessage(d.state, d.modifier))];
        powerState := d.state;
        acts := acts + [SleepSeconds(20)];
        if powerState == On {
          acts := acts + [StartGarden, StartButton, SleepSeconds(10)];
        }
        acts := acts + [Log("Power sleep done")];
      }
      acts := acts + [SleepSeconds(1)];
      actions := actions + acts;
    }

    /** The loop in `main`, over the passes' samples. */
    method Run(samples: seq<Sample>)
      modifies this
      ensures var r := RunFrom(old(powerState), samples);
        powerState == r.state && actions == old(actions) + r.actions
    {
      ghost var whole := RunFrom(powerState, samples);
      ghost var done: seq<Action> := [];
      var i := 0;
      while i < |samples|
        invariant 0 <= i <= |samples|
        invariant actions == old(actions) + done
        invariant whole.state == RunFrom(powerState, samples[i..]).state
        invariant whole.actions == done + RunFrom(powerState, samples[i..]).actions
      {
        ghost var prev := powerState;
        ghost var step := PassActions(prev, Decide(samples[i]));
        assert samples[i..][1..] == samples[i + 1..];
        ghost var next := RunFrom(Decide(samples[i]).state, samples[i + 1..]);
        assert RunFrom(prev, samples[i..]) == RunResult(next.state, step + next.actions);
        Pass(samples[i]);
        AppendAssoc(done, step, next.actions);
        AppendAssoc(old(actions), done, step);
        done := done + step;
        i := i + 1;
      }
      assert samples[i..] == [];
    }
  }
}
