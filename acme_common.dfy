/**
 * Helpers shared by the ACME programs: sleeping for a number of tenths of a
 * second, and running a shell command unless the program only simulates.
 *
 * The clock is left out. What `nanosleep` reports on each call is given as a
 * sequence of outcomes, and the shell's own effect is left out: `DoSystem`
 * only says what is printed, logged and run.
 */
module AcmeCommon {
  import opened Wrappers
  import Text

  const NanosPerTenth: nat := 100_000_000
  const NanosPerSecond: nat := 1_000_000_000

  /** A `struct timespec`: seconds and nanoseconds. */
  datatype Timespec = Timespec(sec: nat, nsec: nat)

  /** What `nanosleep` accepts: the nanoseconds below one second. */
  predicate ValidTimespec(t: Timespec) {
    t.nsec < NanosPerSecond
  }

  /**
   * The request `sleep_10` builds for an `unsigned int` number of tenths:
   * one `nanosleep` accepts, holding the whole seconds of the tenths.
   */
  function TenthsToTimespec(tenths: nat): (t: Timespec)
    requires tenths < Text.TWO_32
    ensures ValidTimespec(t)
    ensures t.sec * 10 <= tenths < t.sec * 10 + 10
  {
    Timespec(tenths / 10, tenths % 10 * NanosPerTenth)
  }

  /**
   * The nanoseconds of the request stay below `LONG_MAX`, so the
   * multiplication in a 32-bit `long` cannot overflow, and the request asks
   * for exactly the tenths given.
   */
  lemma TimespecExact(tenths: nat)
    requires tenths < Text.TWO_32
    ensures TenthsToTimespec(tenths).nsec <= 9 * NanosPerTenth <= Text.LONG_MAX
    ensures TenthsToTimespec(tenths).nsec % NanosPerTenth == 0
    ensures TenthsToTimespec(tenths).sec * 10 + TenthsToTimespec(tenths).nsec / NanosPerTenth == tenths
  {
    var t := TenthsToTimespec(tenths);
    var d := tenths % 10;
    assert t.nsec == d * NanosPerTenth;
    assert t.nsec / NanosPerTenth == d && t.nsec % NanosPerTenth == 0 by {
      assert d < 10;
      if d == 0 {} else if d == 1 {} else if d == 2 {} else if d == 3 {} else if d == 4 {}
      else if d == 5 {} else if d == 6 {} else if d == 7 {} else if d == 8 {} else {}
    }
  }

  /** What one `nanosleep` call reports: it slept the whole time, or was interrupted with time left. */
  datatype SleepOutcome = Slept | Interrupted(remain: Timespec)

  /**
   * The requests `sleep_10`'s loop makes when `nanosleep` reports `outcomes`
   * in turn: the first request, then after each interruption the time that
   * remained, until a call reports success or the outcomes run out.
   */
  function Requests(first: Timespec, outcomes: seq<SleepOutcome>): (r: seq<Timespec>)
    ensures |r| <= |outcomes|
    ensures outcomes != [] ==> r != [] && r[0] == first
    decreases |outcomes|
  {
    if outcomes == [] then []
    else
      match outcomes[0]
      case Slept => [first]
      case Interrupted(remain) => [first] + Requests(remain, outcomes[1..])
  }

  /**
   * Each retry asks for what the interrupted call said remained, and the loop
   * stops at the first success: the last call made is the one that succeeded,
   * or the outcomes ran out without one.
   */
  lemma {:induction false} RetriesResume(first: Timespec, outcomes: seq<SleepOutcome>)
    ensures var r := Requests(first, outcomes);
      forall i | 1 <= i < |r| :: outcomes[i - 1] == Interrupted(r[i])
    ensures var r := Requests(first, outcomes);
      forall i | 0 <= i < |r| - 1 :: outcomes[i].Interrupted?
    ensures var r := Requests(first, outcomes);
      (Slept in outcomes ==> outcomes[|r| - 1] == Slept) && (Slept !in outcomes ==> |r| == |outcomes|)
    decreases |outcomes|
  {
    if outcomes != [] && outcomes[0].Interrupted? {
      var rest := outcomes[1..];
      RetriesResume(outcomes[0].remain, rest);
      assert Slept in outcomes <==> Slept in rest;
    }
  }

  /**
   * `sleep_10`: returns the `nanosleep` requests made, and whether a call
   * reported success (in the program it always does in the end).
   */
  method Sleep10(tenths: nat, outcomes: seq<SleepOutcome>) returns (requests: seq<Timespec>, done: bool)
    requires tenths < Text.TWO_32
    ensures requests == Requests(TenthsToTimespec(tenths), outcomes)
    ensures done <==> Slept in outcomes
  {
    var toSleep := TenthsToTimespec(tenths);
    requests, done := [], false;
    var i := 0;
    while i < |outcomes|
      invariant 0 <= i <= |outcomes|
      invariant Requests(TenthsToTimespec(tenths), outcomes) == requests + Requests(toSleep, outcomes[i..])
      invariant Slept !in outcomes[..i]
    {
      requests := requests + [toSleep];
      match outcomes[i]
      case Slept =>
        assert Slept in outcomes;
        return requests, true;
      case Interrupted(remain) =>
        assert outcomes[i..][1..] == outcomes[i + 1..];
        assert outcomes[..i + 1] == outcomes[..i] + [outcomes[i]];
        toSleep := remain;
        i := i + 1;
    }
    assert outcomes[..i] == outcomes;
  }

  /**
   * `do_system`: what it prints (only when verbose), what it logs (always),
   * and the command it hands to the shell (none when simulating).
   */
  function DoSystem(command: string, verbose: bool, simulate: bool): (r: (string, string, Option<string>))
    ensures r.2 == None <==> simulate
    ensures r.2.Some? ==> r.2.value == command
    ensures r.0 != [] <==> verbose
    ensures r.1 == "do_system(" + command + ")"
  {
    var printed := if verbose then "do_system(" + command + ")\r\n" else [];
    var logged := "do_system(" + command + ")";
    (printed, logged, if simulate then None else Some(command))
  }
}
