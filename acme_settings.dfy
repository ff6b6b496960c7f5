/**
 * The ACME settings screens: the arm time (behind a "Yes" confirmation), the
 * sound volume, and the demo to run, and how the demo name later picks the
 * demo program.
 *
 * Typed text is checked with `isdigit` in the C locale and converted with
 * `atol` into a `uint32_t`. The program's `long` is 32 bits wide.
 */
module AcmeSettings {
  import opened Wrappers
  import opened Text
  import opened AcmeTerminal
  import AcmeConf

  /** The longest arm time accepted, in tenths of a second. */
  const MaxArmTime: nat := 200
  /** The largest volume accepted, in per cent. */
  const MaxVolume: nat := 100

  /** What `atol` into a `uint32_t` makes of the text. */
  function U32Value(s: string): (v: nat)
    ensures v < TWO_32
  {
    ToU32(Atol(s))
  }

  /** Text of digits only converts to its decimal value, saturated at `LONG_MAX`. */
  lemma U32ValueOfDigits(s: string)
    requires AllDigits(s)
    ensures U32Value(s) == if DecValue(s) <= LONG_MAX then DecValue(s) else LONG_MAX
  {
    AtolOfDigits(s);
  }

  /**
   * `arm_time`'s check of the new time: digits only, and a value from 1 to
   * 200 once converted; anything else leaves the time unchanged.
   */
  function ArmTimeEntry(s: string): (r: Option<nat>)
    ensures r.Some? ==> AllDigits(s) && 1 <= r.value <= MaxArmTime
  {
    if !AllDigits(s) then None
    else
      var v := U32Value(s);
      if v <= 0 || v > MaxArmTime then None else Some(v)
  }

  /**
   * A time is accepted exactly when it is digits with a value from 1 to 200,
   * and then it is that value; so the empty line (which converts to 0) is
   * refused, and so is any number too large for a `long`.
   */
  lemma ArmTimeAccepts(s: string)
    ensures ArmTimeEntry(s).Some? <==> AllDigits(s) && 1 <= DecValue(s) <= MaxArmTime
    ensures ArmTimeEntry(s).Some? ==> ArmTimeEntry(s).value == DecValue(s)
    ensures ArmTimeEntry("") == None
  {
    if AllDigits(s) {
      U32ValueOfDigits(s);
      if ArmTimeEntry(s).Some? {
        assert ArmTimeEntry(s).value == U32Value(s) <= MaxArmTime;
      }
    }
    assert ArmTimeEntry("") == None by {
      U32ValueOfDigits("");
    }
  }

  /**
   * An accepted time is stored exactly: saving the configuration and reading
   * it back gives the new time and leaves every other setting as it was.
   */
  lemma ArmTimeSaved(c: AcmeConf.Config, s: string)
    requires '\n' !in c.password && '\n' !in c.demoName
    requires ArmTimeEntry(s).Some?
    ensures AcmeConf.Parse(AcmeConf.Serialise(c.(armTime := ArmTimeEntry(s).value))) == c.(armTime := DecValue(s))
  {
    ArmTimeAccepts(s);
    AcmeConf.ParseSerialise(c.(armTime := ArmTimeEntry(s).value));
  }

  /** `volume`'s check: digits only, and a value of at most 100 once converted. */
  function VolumeEntry(s: string): (r: Option<nat>)
    ensures r.Some? ==> AllDigits(s) && r.value <= MaxVolume
  {
    if !AllDigits(s) then None
    else
      var v := U32Value(s);
      if v > MaxVolume then None else Some(v)
  }

  /**
   * A volume is accepted exactly when it is digits with a value of at most
   * 100, and then it is that value; the empty line is accepted as 0.
   */
  lemma VolumeAccepts(s: string)
    ensures VolumeEntry(s).Some? <==> AllDigits(s) && DecValue(s) <= MaxVolume
    ensures VolumeEntry(s).Some? ==> VolumeEntry(s).value == DecValue(s)
    ensures VolumeEntry("") == Some(0)
  {
    if AllDigits(s) {
      U32ValueOfDigits(s);
    }
    assert VolumeEntry("") == Some(0) by {
      U32ValueOfDigits("");
    }
  }

  const MixerPrefix: string := "amixer set PCM -- "

  /** The command `volume` runs and saves to `vol_cmd.sh`, ended by `std::endl`. */
  function VolumeCommand(v: nat): (cmd: string)
    ensures |cmd| > |MixerPrefix| && cmd[..|MixerPrefix|] == MixerPrefix && cmd[|cmd| - 2..] == "%\n"
  {
    MixerPrefix + NatToDec(v) + "%\n"
  }

  /** The percentage written into the command is the volume accepted. */
  lemma VolumeCommandReadsBack(v: nat)
    requires v <= MaxVolume
    ensures Atol(VolumeCommand(v)[|MixerPrefix|..]) == v
  {
    assert VolumeCommand(v)[|MixerPrefix|..] == NatToDec(v) + "%\n";
    AtolOfDecimal(v, "%\n");
  }

  /** `set_demo`: the name each demo key stores; any other key stores nothing. */
  function DemoName(ch: char): (r: Option<string>)
    ensures r.Some? ==> |r.value| >= 4 && r.value[0] == ch && '\n' !in r.value
  {
    if ch == 'l' then Some("long")
    else if ch == 's' then Some("short")
    else if ch == 'w' then Some("wind")
    else None
  }

  /** The demo programs `start_demo_process` can start. */
  datatype DemoProgram = LongDemo | ShortDemo | WindDemo

  /**
   * `start_demo_process`'s choice of program by the first letter of the demo
   * name: `None` where it dies, for a name that is empty (`at(0)` throws) or
   * starts with another letter.
   */
  function DemoFor(name: string): (r: Option<DemoProgram>)
    ensures r.Some? <==> name != [] && name[0] in "lsw"
    ensures r == Some(LongDemo) <==> name != [] && name[0] == 'l'
    ensures r == Some(ShortDemo) <==> name != [] && name[0] == 's'
    ensures r == Some(WindDemo) <==> name != [] && name[0] == 'w'
  {
    if name == [] then None
    else if name[0] == 'l' then Some(LongDemo)
    else if name[0] == 's' then Some(ShortDemo)
    else if name[0] == 'w' then Some(WindDemo)
    else None
  }

  /**
   * The keys 'l', 's' and 'w' and only they set a name, the name starts with
   * the key, and it makes `start_demo_process` start the matching demo.
   */
  lemma DemoKeyPicksDemo(ch: char)
    ensures DemoName(ch).Some? <==> ch == 'l' || ch == 's' || ch == 'w'
    ensures DemoName(ch).Some? ==> DemoName(ch).value[0] == ch
    ensures DemoName(ch).Some? ==>
      DemoFor(DemoName(ch).value) == Some(if ch == 'l' then LongDemo else if ch == 's' then ShortDemo else WindDemo)
  {
  }

  /** `set_demo`: read one key, and store the name it picks, if any. */
  method SetDemo(term: Terminal, conf: AcmeConf.ConfigStore)
    modifies term`keys, conf
    ensures var ch := if old(term.keys) == [] then TimeoutChar else GetChar(old(term.keys)[0]);
      term.keys == (if old(term.keys) == [] then [] else old(term.keys)[1..]) &&
      match DemoName(ch)
      case Some(name) => conf.Current() == old(conf.Current()).(demoName := name) &&
        conf.file == AcmeConf.Serialise(conf.Current())
      case None => unchanged(conf)
  {
    var ch := term.GetKey();
    match DemoName(ch) {
      case Some(name) => conf.SetDemoName(name);
      case None =>
    }
  }

  /**
   * `arm_time`: read the confirmation line and then the new time, both with
   * echo, and store the time when it is confirmed and accepted. Returns the
   * time stored, if any.
   */
  method ArmTime(term: Terminal, conf: AcmeConf.ConfigStore) returns (stored: Option<nat>)
    modifies term, conf
    ensures var l := LineFrom(old(term.keys), true);
      var rest := old(term.keys)[l.consumed..];
      var t := LineFrom(rest, true);
      if l.line != "Yes" then
        stored == None && unchanged(conf) && term.keys == rest && term.shown == old(term.shown) + l.echoed
      else
        stored == ArmTimeEntry(t.line) && term.keys == rest[t.consumed..] &&
        term.shown == old(term.shown) + l.echoed + t.echoed &&
        match stored
        case Some(v) => conf.Current() == old(conf.Current()).(armTime := v) &&
          conf.file == AcmeConf.Serialise(conf.Current())
        case None => unchanged(conf)
  {
    var confirm := term.ReadLine(true);
    if confirm != "Yes" {
      return None;
    }
    var line := term.ReadLine(true);
    stored := ArmTimeEntry(line);
    if stored.Some? {
      conf.SetArmTime(stored.value);
    }
  }

  /**
   * `volume`: read the percentage with echo, and when it is accepted return
   * the command that sets it (which the program runs and writes to
   * `vol_cmd.sh`).
   */
  method Volume(term: Terminal) returns (command: Option<string>)
    modifies term
    ensures var l := LineFrom(old(term.keys), true);
      term.keys == old(term.keys)[l.consumed..] && term.shown == old(term.shown) + l.echoed &&
      command == match VolumeEntry(l.line)
        case Some(v) => Some(VolumeCommand(v))
        case None => None
  {
    var line := term.ReadLine(true);
    var v := VolumeEntry(line);
    if v.Some? {
      command := Some(VolumeCommand(v.value));
    } else {
      command := None;
    }
  }
}
