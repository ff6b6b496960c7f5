# Garden railway signals and the ACME signal: a Dafny model

This project models the control software of a garden railway layout and of
the ACME traffic signal that belongs to it:

- **The relay board link** (`relay.h`, `relay.cpp`). Relay names and their
  labels, the command strings sent to the USB relay board, and the
  echo/prompt protocol spoken over the serial line. The link is a `Link`
  class holding the bytes still to be read, the bytes written and the lock.
- **The garden controller** (`garden.cpp`). It has one handler per train
  feature (H2, W4, C3, the car signal, the two wig-wags, low noise), and
  each handler has a semaphore counter. A handler pass writes relays while
  checking the signal mode. The input pipe maps button digits to handlers,
  and a command interface offers reset, IP, test, button and status.
- **The button readers**:
  - `button_mcp.cpp`: the MCP2200 packets as 16-byte buffers, the baud
    divisor arithmetic in 16 bits, the set/clear packet, and the edge
    detector that turns falling GPIO bits into digits.
  - `button_avr.cpp`: the key-event reader and the key-to-digit map.
  - `gpio_to_key.c`: the AVR firmware's port scan, which sends one key
    code for each falling pin.
- **The ACME signal**:
  - `hw.h` and `hw.cpp`: the two signal heads. Each is a class with an arm
    state that emits ordered relay writes.
  - `conf.h`: the five-line configuration file, with its parser and
    serialiser.
  - `acme.cpp`: the terminal line reader, the diagnostic mode, manual mode
    and the settings screens.
  - `common.cpp`: the interrupted-sleep retry.
- **The power scheduler** (`power.cpp`). It decides the state from two
  override pins and the hour, and acts only on a change.

Relay writes, sleeps, log lines and process starts are recorded as event
sequences. Devices, pipes and terminals are modelled by the bytes or keys
they will deliver, and a timeout by those bytes or keys running out. Loops
and state-changing code are methods. Each method is proved against a
specification function, and the lemmas prove the source's promises about
those functions.

## Model

| member | source | states |
|---|---|---|
| RelayNames.StateOrdinal | programs/production/signal-prog/relay.h:16 | A relay state's ordinal is below 2, and it is 0 exactly for OFF |
| RelayNames.StateOfOrdinal | programs/production/signal-prog/relay.h:16 | Converting an ordinal back gives the state it came from |
| RelayNames.Index | programs/production/signal-prog/relay.h:19-40 | Every garden relay has an index below the relay count, and the table entry at that index names that relay |
| RelayNames.Name | programs/production/signal-prog/relay.h:19-40 | The relay at an index has that index |
| RelayNames.Label | programs/production/signal-prog/relay.h:19-40 | A relay's label is the one the relay table pairs with that relay |
| RelayNames.LabelAligned | programs/production/signal-prog/relay.h:19-40 | The relay at table position i has the label at position i, and the only position holding a relay is that relay's index |
| RelayNames.LabelsOneLine | programs/production/signal-prog/relay.h:19-40 | No relay label holds a line break |
| RelayNames.IndexBijective | programs/production/signal-prog/relay.h:67-71 | Relay names and indexes are in one-to-one correspondence |
| RelayNames.TrackSemLabels | programs/production/signal-prog/relay.h:23-24 | Two different relays both carry the label "Track Sem. L" |
| RelayNames.LastRelayIndex | programs/production/signal-prog/relay.h:75 | The last garden relay has index 8 |
| RelayNames.AcmeIndex | programs/production/signal-prog/relay.h:42-63 | Every ACME relay has an index below the ACME relay count, and the table entry there names it |
| RelayNames.AcmeName | programs/production/signal-prog/relay.h:42-63 | The ACME relay at an index has that index |
| RelayNames.AcmeLastRelayIndex | programs/production/signal-prog/relay.h:77 | The last ACME relay has index 15 |
| Text.NatToDec | programs/acme/acme/conf.h:72 | Decimal text is all digits, has no leading zero, and reads back as the number |
| Text.IntToDec | programs/production/signal-prog/garden.cpp:625 | Signed decimal text starts with a minus sign exactly for a negative value, and the rest is digits without a leading zero that read back as the magnitude |
| Text.NatToHex | programs/production/signal-prog/relay.cpp:288-290 | Upper-case hexadecimal text is all hex digits, has no leading zero, and reads back as the number |
| Text.ClampLong | programs/acme/acme/conf.h:53 | The value is clamped into the range of a 32-bit `long`, and values already in range are kept |
| Text.ToU32 | programs/acme/acme/conf.h:53 | Storing a value into a `uint32_t` gives a value below 2^32, and keeps values already in range |
| Text.Atol | programs/acme/acme/conf.h:53 | `atol` gives a value in the range of a 32-bit `long`, negative only after a minus sign, and 0 for text without a sign or digit after the white space |
| Text.AtolOfDecimal | programs/acme/acme/conf.h:53 | `atol` of a number's decimal text gives the number back, whatever non-digit text follows |
| Text.AtolUnsigned | programs/acme/acme/conf.h:53 | `atol` of text that starts with a digit is the value of its leading digits, clamped to the range of a `long` |
| Text.AtolOfDigits | programs/acme/acme/conf.h:53 | `atol` of all-digit text is its decimal value, saturated at `LONG_MAX` |
| RelayLink.RenderInjective | programs/production/signal-prog/relay.cpp:242-290 | Different relay, status and GPIO commands render to different strings |
| RelayLink.RenderShape | programs/production/signal-prog/relay.cpp:242-290 | Each command starts with the letters of its verb ("relay ... on/off", "relay read", "gpio"); reset and version are "reset" and "ver" |
| RelayLink.Render | programs/production/signal-prog/relay.cpp:242-290 | No rendered command holds a line feed or carriage return, so its echo cannot be taken for the reply's end |
| RelayLink.FindDevice | programs/production/signal-prog/relay.cpp:165-171 | Succeeds exactly when some candidate device is accessible, with the first accessible one; otherwise fails with "Could not find device" |
| RelayLink.ReadByte | programs/production/signal-prog/relay.cpp:52-66 | A byte is read exactly when the board has one pending, and it is the first pending byte, consumed; otherwise "Timeout" and nothing changes; nothing is written and the lock is untouched |
| RelayLink.EchoFrom | programs/production/signal-prog/relay.cpp:81-93 | The echo check writes nothing, keeps the lock as it was, and fails only with "Timeout", "Echo error", "Echo linefeed error" or "Echo return error" |
| RelayLink.Exchange | programs/production/signal-prog/relay.cpp:71-112 | A command exchange writes the command and a carriage return exactly when the device takes the write, and fails only with one of the protocol's messages |
| RelayLink.PayloadFrom | programs/production/signal-prog/relay.cpp:116-142 | Reading the payload writes nothing, and fails only with "Timeout", "Line feed response error" or "Prompt response error" |
| RelayLink.Query | programs/production/signal-prog/relay.cpp:116-142 | A query writes the command and a carriage return exactly when the device takes the write, and fails only with one of the protocol's messages |
| RelayLink.GpioSweep | programs/production/signal-prog/relay.cpp:155-156 | The sweep only appends to what was written, and an unwritable device fails at the first pin with "Unable to write to device", holding the lock |
| RelayLink.ResetExchange | programs/production/signal-prog/relay.cpp:150-157 | A reset on an unwritable device fails with "Unable to write to device" and holds the lock; otherwise "reset" and a carriage return are written first |
| RelayLink.EchoReadsOnly | programs/production/signal-prog/relay.cpp:81-93 | The echo check only consumes input and never writes |
| RelayLink.EchoMatches | programs/production/signal-prog/relay.cpp:81-93 | An input that starts with the rest of the command and "\n\r" passes, and consumes exactly that echo |
| RelayLink.EchoPassed | programs/production/signal-prog/relay.cpp:81-93 | A passing echo check means the input started with the rest of the command and "\n\r", and only that was consumed |
| RelayLink.EchoMismatch | programs/production/signal-prog/relay.cpp:81-93 | At the first differing byte the check fails with "Echo error" for a command byte, "Echo linefeed error" for the line feed, and "Echo return error" for the carriage return |
| RelayLink.EchoTimeout | programs/production/signal-prog/relay.cpp:61-62 | Input that ends inside a matching echo gives a timeout |
| RelayLink.ExchangeSucceedsIff | programs/production/signal-prog/relay.cpp:71-112 | A command exchange passes exactly when the device is writable and the input starts with the command, "\n\r" and the prompt; it then writes the command plus "\r" and unlocks |
| RelayLink.ExchangeFailures | programs/production/signal-prog/relay.cpp:71-112 | A failed exchange keeps the lock. An unwritable device gives "Unable to write to device", a bad prompt gives "Prompt response error", and a short reply times out |
| RelayLink.PayloadFailureKeepsLock | programs/production/signal-prog/relay.cpp:116-142 | A failed response read keeps the lock held |
| RelayLink.PayloadMatches | programs/production/signal-prog/relay.cpp:116-142 | A payload free of line feeds, followed by "\n\r>", is returned exactly and unlocks |
| RelayLink.PayloadPassed | programs/production/signal-prog/relay.cpp:116-142 | A returned payload holds no line feed, and the input was the payload followed by "\n\r>" |
| RelayLink.PayloadFailures | programs/production/signal-prog/relay.cpp:116-142 | A line feed without its carriage return gives "Line feed response error", a missing prompt gives "Prompt response error", and input that runs out times out |
| RelayLink.QueryAccepts | programs/production/signal-prog/relay.cpp:116-142 | A query whose input is the echo, a payload free of line feeds and the prompt returns the payload, writes the command plus "\r" and unlocks |
| RelayLink.QueryPassed | programs/production/signal-prog/relay.cpp:116-142 | A successful query's input was the echo, the payload and the prompt |
| RelayLink.QueryFailures | programs/production/signal-prog/relay.cpp:116-142 | A failed query keeps the lock, and an unwritable device fails with "Unable to write to device" |
| RelayLink.QuerySuccessUnlocks | programs/production/signal-prog/relay.cpp:116-142 | A successful query releases the lock |
| RelayLink.GpioSweepFailureKeepsLock | programs/production/signal-prog/relay.cpp:155-156 | A failed GPIO sweep during reset keeps the lock, and a sweep that passes before its last pin has unlocked |
| RelayLink.ResetFailureKeepsLock | programs/production/signal-prog/relay.cpp:150-157 | A failed reset keeps the lock |
| RelayLink.GpioSweepWrites | programs/production/signal-prog/relay.cpp:155-156 | A sweep that passes writes "gpio read i" and a carriage return for each pin from i up to 9, in order, and unlocks |
| RelayLink.ResetWrites | programs/production/signal-prog/relay.cpp:150-157 | A reset that passes writes "reset" and a carriage return, then the ten GPIO reads of pins 0 to 9, and leaves the lock free |
| RelayLink.GpioReadText | programs/production/signal-prog/relay.cpp:254-266 | The GPIO read of pin i (below 10) is "gpio read " followed by the single digit i |
| RelayLink.Link.constructor | programs/production/signal-prog/relay.cpp:22-25 | A new link has only the device reply to read, has written nothing, is unlocked and has no device |
| RelayLink.Link.ReadCh | programs/production/signal-prog/relay.cpp:52-66 | Reads as the byte-read specification says: the next byte, consumed, or a timeout when no input is left |
| RelayLink.Link.RawRelaySend | programs/production/signal-prog/relay.cpp:71-94 | The link ends in the state the exchange specification gives |
| RelayLink.Link.RawRelay | programs/production/signal-prog/relay.cpp:98-112 | In simulation, records "RAW RELAY: " plus the command and nothing else; otherwise behaves as the exchange |
| RelayLink.Link.RawRelayResponse | programs/production/signal-prog/relay.cpp:116-142 | Returns what the query specification gives, and leaves the link in its final state |
| RelayLink.Link.Relay | programs/production/signal-prog/relay.cpp:275-292 | Sends the rendered "relay on/off" command through the exchange; in simulation it returns without touching the link |
| RelayLink.Link.RelayStatus | programs/production/signal-prog/relay.cpp:235-247 | Queries the rendered "relay read" command; in simulation returns "0" |
| RelayLink.Link.GpioStatus | programs/production/signal-prog/relay.cpp:254-266 | Queries the rendered "gpio read" command; in simulation returns "1" |
| RelayLink.Link.RelayReset | programs/production/signal-prog/relay.cpp:150-157 | Ends in the state the reset specification gives; in simulation it only prints "RAW RELAY: reset" |
| RelayLink.Link.Setup | programs/production/signal-prog/relay.cpp:176-230 | In simulation does nothing. Otherwise fails when no device is found, and else queries the version and accepts only "00000001" or "00000008" |
| Garden.HandlerIndex | programs/production/signal-prog/garden.cpp:73-83 | Every handler has a table position of at most 8, and 8 belongs only to the end marker |
| Garden.Run | programs/production/signal-prog/garden.cpp:358-383 | Running the stages only appends to the log, and the environment kept is the one before or one a wait returned |
| Garden.HandlerPass | programs/production/signal-prog/garden.cpp:358-383 | A pass first writes the resting state after the log, and ends at an environment one of its waits returned |
| Garden.StagedHandlersStayOnTheirRelays | programs/production/signal-prog/garden.cpp:224-558 | A pass of the H2, W4, C3 or car handler writes only that handler's relays |
| Garden.HandlerPassAbandon | programs/production/signal-prog/garden.cpp:358-383 | A checked pass that first finds low-noise mode at check k stops there, having written the resting state and the first k stages only |
| Garden.HandlerPassComplete | programs/production/signal-prog/garden.cpp:358-383 | A pass that never checks, or finds the mode normal at every check, writes the resting state, every stage and the final writes |
| Garden.CarCompletePass | programs/production/signal-prog/garden.cpp:343-389 | A complete car pass leaves the car, left and right relays off |
| Garden.W4AlwaysCompletes | programs/production/signal-prog/garden.cpp:528-556 | W4 never checks the mode; it ends with red off, yellow off and green on |
| Garden.H2PassShape | programs/production/signal-prog/garden.cpp:228-239 | The H2 pass writes the H2 relay off and then on |
| Garden.W4PassShape | programs/production/signal-prog/garden.cpp:528-556 | The W4 pass writes red, yellow and green in the order of the source |
| Garden.C3PassShape | programs/production/signal-prog/garden.cpp:477-510 | The C3 pass goes red, yellow, green, and stops at the first check that finds low-noise mode |
| Garden.CarPassShape | programs/production/signal-prog/garden.cpp:343-389 | The car pass writes its steps in source order, and stops at the first check that finds low-noise mode |
| Garden.NoiseRoutineOrder | programs/production/signal-prog/garden.cpp:403-459 | The low-noise routine enters LowNoise mode first, writes only while in it, clears the active flag, and returns to Normal last |
| Garden.NoiseRoutineEnds | programs/production/signal-prog/garden.cpp:403-459 | After the low-noise routine the C3 and track lights are all off |
| Garden.WigWagEvents | programs/production/signal-prog/garden.cpp:251-310 | A wig-wag pass first writes its relay off; it writes it on exactly when the "no sound" switch is not "0" and the noise routine is not latched, and posts the noise routine exactly when, in addition, the "low noise" switch is "0" |
| Garden.PipeTargetDigits | programs/production/signal-prog/garden.cpp:873-881 | Every digit posts a handler, and no posted handler is the end marker |
| Garden.PipeTarget | programs/production/signal-prog/garden.cpp:873-881 | A pipe byte posts a handler only when it is a digit, and that handler is the digit's button-table entry |
| Garden.PipeTargets | programs/production/signal-prog/garden.cpp:873-881 | The handlers posted from the pipe never include the end marker |
| Garden.PipeTargetsCount | programs/production/signal-prog/garden.cpp:873-881 | The number of posts equals the number of mapped digits in the input |
| Garden.InputStep | programs/production/signal-prog/garden.cpp:873-884 | Reading one more byte adds exactly that byte's post |
| Garden.ButtonKeys | programs/production/signal-prog/garden.cpp:585-610 | Buttons 1, 2, 3, 4, 5 and 7 post the same handler as the pipe digit one lower, and 6, 8 and 9 a different one |
| Garden.ButtonTarget | programs/production/signal-prog/garden.cpp:585-610 | Exactly the buttons 1 to 9, n and N post a handler, and never the end marker |
| Garden.LampTestEvents | programs/production/signal-prog/garden.cpp:563-575 | The lamp test turns each lamp-test relay on, one after the other |
| Garden.LampTestLightsTen | programs/production/signal-prog/garden.cpp:563-575 | The lamp test lights ten relays, not the bell or the wig-wags, and leaves every other relay as it was |
| Garden.StatusLines | programs/production/signal-prog/garden.cpp:615-632 | The status has one line per relay shown and one per GPIO |
| Garden.StatusParses | programs/production/signal-prog/garden.cpp:615-632 | Splitting the status text at line feeds gives back its lines, and relay line i reads "Relay i:[label] state" and the reading |
| Garden.Status | programs/production/signal-prog/garden.cpp:615-632 | The method's reply is the status text built from the readings |
| Garden.HandlerInfo.constructor | programs/production/signal-prog/garden.cpp:100-105 | A handler record starts with its id and a zero semaphore |
| Garden.Garden.Entry | programs/production/signal-prog/garden.cpp:153-200 | The handler table's entry for a handler carries that handler's id |
| Garden.Garden.Relays | programs/production/signal-prog/garden.cpp:153-200 | The relay levels derived from the log have one entry per relay |
| Garden.Garden.constructor | programs/production/signal-prog/garden.cpp:924-943 | Start-up resets the board, leaves every relay off and every semaphore zero, in Normal mode |
| Garden.Garden.Write | programs/production/signal-prog/garden.cpp:224-239 | A relay call appends exactly that write to the log |
| Garden.Garden.SemClear | programs/production/signal-prog/garden.cpp:121-125 | Draining a semaphore leaves it at zero |
| Garden.Garden.Push | programs/production/signal-prog/garden.cpp:208-215 | Posting a handler adds one to its semaphore, logs the post and replies "OK" |
| Garden.Garden.Wait | programs/production/signal-prog/garden.cpp:134-140 | Waiting leaves the semaphore and the shared mode as the other threads left them |
| Garden.Garden.HandleH2Pass | programs/production/signal-prog/garden.cpp:224-241 | One loop round of `handle_h2` logs the H2 pass specification |
| Garden.Garden.HandleW4Pass | programs/production/signal-prog/garden.cpp:523-558 | One loop round of `handle_w4` logs the W4 pass specification |
| Garden.Garden.C3Rest | programs/production/signal-prog/garden.cpp:480-484 | The C3 resting writes are those of the C3 table |
| Garden.Garden.HandleC3Pass | programs/production/signal-prog/garden.cpp:472-512 | One loop round of `handle_c3` logs the C3 pass specification |
| Garden.Garden.CarRest | programs/production/signal-prog/garden.cpp:346-350 | The car resting writes are those of the car table |
| Garden.Garden.HandleCarPass | programs/production/signal-prog/garden.cpp:338-391 | One loop round of `handle_car` logs the car pass specification |
| Garden.Garden.GenericWWPass | programs/production/signal-prog/garden.cpp:251-310 | A wig-wag pass writes its relay as the sound switches and the low-noise flag say, and posts the low-noise handler when "low sound" is chosen |
| Garden.Garden.HandleNoisePass | programs/production/signal-prog/garden.cpp:398-461 | A low-noise pass logs the whole routine and ends in Normal mode with the active flag clear |
| Garden.Garden.NoiseOpen | programs/production/signal-prog/garden.cpp:416-424 | Opening the routine sets LowNoise mode and logs its opening writes |
| Garden.Garden.NoiseRun | programs/production/signal-prog/garden.cpp:427-444 | The middle of the routine logs the train sequence |
| Garden.Garden.NoiseRelease | programs/production/signal-prog/garden.cpp:447-455 | Releasing clears the active flag after the clearing writes |
| Garden.Garden.NoiseClose | programs/production/signal-prog/garden.cpp:456-458 | Closing returns the mode to Normal |
| Garden.Garden.InputThread | programs/production/signal-prog/garden.cpp:845-886 | Reading the pipe posts each mapped digit's handler once per occurrence, in order |
| Garden.Garden.InputByte | programs/production/signal-prog/garden.cpp:873-884 | One byte posts its mapped handler, or nothing |
| Garden.Garden.DoButton | programs/production/signal-prog/garden.cpp:585-610 | A known button posts its handler and replies "OK"; any other replies "Unknown button" and changes nothing |
| Garden.Garden.LampTest | programs/production/signal-prog/garden.cpp:563-575 | The lamp test logs the lamp test sequence and leaves the mode alone |
| Garden.Garden.DoCmd | programs/production/signal-prog/garden.cpp:660-686 | 'r' resets the board and reaches `abort`, 'i' replies with the address and a line feed, 't' runs the lamp test and replies "OK", 'b' runs the button, 's' replies with the status, and anything else gets the help text |
| ButtonMcp.BaudCode | programs/production/signal-prog/button_mcp.cpp:176-180 | The divisor for any positive rate fits in 16 bits |
| ButtonMcp.BaudRoundTrip | programs/production/signal-prog/button_mcp.cpp:176-180 | A rate that divides the 12 MHz clock with a divisor that fits reads back exactly |
| ButtonMcp.BaudReportedAtLeast | programs/production/signal-prog/button_mcp.cpp:176-195 | For any rate up to the clock whose divisor fits, the rate read back is at least the rate set |
| ButtonMcp.ReportedRate | programs/production/signal-prog/button_mcp.cpp:193-195 | The rate reported is at most the 12 MHz clock, equal to it exactly for divisor 0, and 0 for a divisor of at least the clock |
| ButtonMcp.BaudTooSlowWraps | programs/production/signal-prog/button_mcp.cpp:176-180 | A rate of 183 wraps the 16-bit divisor to 36 |
| ButtonMcp.BaudTooFastWraps | programs/production/signal-prog/button_mcp.cpp:176-180 | Any rate above 12000000 gives the divisor 0xFFFF |
| ButtonMcp.DefaultBaudCode | programs/production/signal-prog/button_mcp.cpp:155-159 | The default 9600 baud is stored as divisor 1249 |
| ButtonMcp.WordOfBytes | programs/production/signal-prog/button_mcp.cpp:193-195 | Splitting a 16-bit value into its high and low bytes and joining them gives it back |
| ButtonMcp.BytesOfWord | programs/production/signal-prog/button_mcp.cpp:176-180 | Joining two bytes and splitting the word gives them back |
| ButtonMcp.ConfigCmd.constructor | programs/production/signal-prog/button_mcp.cpp:155-159 | A new configure packet has the command byte, the 9600-baud divisor and every other byte zero |
| ButtonMcp.ConfigCmd.Baud | programs/production/signal-prog/button_mcp.cpp:193-195 | The divisor is the 16-bit value whose high and low bytes are the packet's baud bytes |
| ButtonMcp.ConfigCmd.SetByte | programs/production/signal-prog/button_mcp.cpp:164-175 | Writing one byte of the packet leaves the other fifteen unchanged |
| ButtonMcp.ConfigCmd.SetIoBmp | programs/production/signal-prog/button_mcp.cpp:164-166 | Sets the I/O direction byte and only it |
| ButtonMcp.ConfigCmd.SetConfigAltPins | programs/production/signal-prog/button_mcp.cpp:167-169 | Sets the alternate-pins byte and only it |
| ButtonMcp.ConfigCmd.SetIoDefaultValBmap | programs/production/signal-prog/button_mcp.cpp:170-172 | Sets the default-value byte and only it |
| ButtonMcp.ConfigCmd.SetConfigAltOptions | programs/production/signal-prog/button_mcp.cpp:173-175 | Sets the alternate-options byte and only it |
| ButtonMcp.ConfigCmd.SetBaud | programs/production/signal-prog/button_mcp.cpp:176-180 | Stores the divisor's high and low bytes and nothing else |
| ButtonMcp.SetterChangesOneByte | programs/production/signal-prog/button_mcp.cpp:164-175 | A setter sets its byte to the value and changes no other byte |
| ButtonMcp.ReadAllResponse.constructor | programs/production/signal-prog/button_mcp.cpp:264-266 | A new response buffer is all zero |
| ButtonMcp.ReadAllResponse.Baud | programs/production/signal-prog/button_mcp.cpp:257-259 | The divisor is the 16-bit value whose high and low bytes are the response's baud bytes |
| ButtonMcp.SetClearKeepDisjoint | programs/production/signal-prog/button_mcp.cpp:312-319 | Set and clear keep the set map and the clear map disjoint |
| ButtonMcp.SetClearKeepCover | programs/production/signal-prog/button_mcp.cpp:312-319 | Set and clear keep every pin in one of the two maps |
| ButtonMcp.ReplayFromNew | programs/production/signal-prog/button_mcp.cpp:312-326 | After any series of set and clear calls on a new packet, every pin is in exactly one of the two maps |
| ButtonMcp.SetActs | programs/production/signal-prog/button_mcp.cpp:312-315 | After a set, the bits are in the set map and not in the clear map, and other bits keep their maps |
| ButtonMcp.ClearActs | programs/production/signal-prog/button_mcp.cpp:316-319 | After a clear, the bits are in the clear map and not in the set map, and other bits keep their maps |
| ButtonMcp.SetClearAll.constructor | programs/production/signal-prog/button_mcp.cpp:321-326 | A new set/clear packet has the command byte, an empty set map, a full clear map and every other byte zero |
| ButtonMcp.SetClearAll.Set | programs/production/signal-prog/button_mcp.cpp:312-315 | Updates the two maps as a set does and no other byte |
| ButtonMcp.SetClearAll.Clear | programs/production/signal-prog/button_mcp.cpp:316-319 | Updates the two maps as a clear does and no other byte |
| ButtonMcp.DeltaBit | programs/production/signal-prog/button_mcp.cpp:838 | A delta bit is set exactly when the pin was high and is now low |
| ButtonMcp.EdgesExact | programs/production/signal-prog/button_mcp.cpp:838-845 | A digit is emitted exactly for each falling bit, only bit digits, in ascending order |
| ButtonMcp.Edges | programs/production/signal-prog/button_mcp.cpp:838-845 | An unchanged port emits nothing, and only the digits '0' to '7' are emitted |
| ButtonMcp.AllEdges | programs/production/signal-prog/button_mcp.cpp:817-847 | Over any run of reads only the digits '0' to '7' are emitted |
| ButtonMcp.FirstReadSilent | programs/production/signal-prog/button_mcp.cpp:817-832 | The first read emits nothing, because the previous bits start at zero |
| ButtonMcp.EmitEdges | programs/production/signal-prog/button_mcp.cpp:832-846 | The bit loop emits the edge digits of one read |
| ButtonMcp.Poll | programs/production/signal-prog/button_mcp.cpp:817-847 | The polling loop emits the edges of every read, each against the read before |
| ButtonAvr.NextKey | programs/production/signal-prog/button_avr.cpp:45-64 | `get_key` consumes a suffix-leaving prefix of the events, at least one when there are any |
| ButtonAvr.FirstStop | programs/production/signal-prog/button_avr.cpp:45-64 | The position where `get_key`'s loop stops is the first read that fails or is a key press, or the end of the reads; no read before it is either |
| ButtonAvr.NextKeyAtFirstStop | programs/production/signal-prog/button_avr.cpp:45-64 | `get_key` returns the code of the first press other than code 69, or -1 at a read error or when events run out, and consumes up to it |
| ButtonAvr.NextKeyIsPress | programs/production/signal-prog/button_avr.cpp:57-62 | A key returned is the code of a press event in the input, and never 69 |
| ButtonAvr.KeyDigit | programs/production/signal-prog/button_avr.cpp:112-141 | A mapped key gives a digit from '0' to '8' |
| ButtonAvr.KeyDigitsDistinct | programs/production/signal-prog/button_avr.cpp:112-141 | Exactly the keys A, B, C, D, H, M, N, O and P are mapped, and to different digits |
| ButtonAvr.PipeIsPerRead | programs/production/signal-prog/button_avr.cpp:102-143 | The pipe output is the concatenation of each read's digit |
| ButtonAvr.PipeDigitsOnly | programs/production/signal-prog/button_avr.cpp:112-141 | Only the digits '0' to '8' are ever written to the pipe |
| ButtonAvr.PipeOutput | programs/production/signal-prog/button_avr.cpp:71-145 | Whatever the device delivers, only the digits '0' to '8' are written to the pipe |
| ButtonAvr.EventDevice.constructor | programs/production/signal-prog/button_avr.cpp:90-100 | An opened device delivers the given events |
| ButtonAvr.EventDevice.GetKey | programs/production/signal-prog/button_avr.cpp:45-64 | The read loop returns and consumes what the key specification gives |
| ButtonAvr.GenericInput | programs/production/signal-prog/button_avr.cpp:71-145 | Writes to the pipe exactly the specified output for all events, reopening after read errors |
| ButtonAvr.UsageKey | programs/production/firmware.avr/gpio_to_key.c:56-61 | Exactly the key codes the firmware can send have a host key code |
| ButtonAvr.PressWritesDigit | programs/production/signal-prog/button_avr.cpp:104-141 | The host events of one press write exactly that key's digit, or nothing for an unmapped key |
| ButtonAvr.UsageDigit | programs/production/signal-prog/button_avr.cpp:112-141 | A firmware key press gives at most one digit, from '0' to '8', and gives one exactly for the letters A, B, C, D, H, M, N, O and P |
| ButtonAvr.PipeOfFirmwarePresses | programs/production/signal-prog/button_avr.cpp:8-18 | The firmware presses, read by the host, give the digits of the wired pins in order |
| ButtonAvr.PinsToDigits | programs/production/signal-prog/button_avr.cpp:8-18 | Every pin the firmware scans sends a code, and it reaches the digit of the pin table |
| GpioToKey.FallenBits | programs/production/firmware.avr/gpio_to_key.c:56-59 | Entry i is set exactly when the mask test finds bit i clear now and set in the previous sample |
| GpioToKey.ScanPressesExact | programs/production/firmware.avr/gpio_to_key.c:54-63 | A scan sends KEY_A+i exactly when port B bit i fell and KEY_M+i exactly when port D bit i fell, in the order B0, D0, ..., B7, D7 |
| GpioToKey.ScanPresses | programs/production/firmware.avr/gpio_to_key.c:54-63 | A scan sends only codes of the letters A to H and M to T |
| GpioToKey.AllPresses | programs/production/firmware.avr/gpio_to_key.c:48-70 | Over any run of scans only codes of the letters A to H and M to T are sent |
| GpioToKey.UnchangedScanSilent | programs/production/firmware.avr/gpio_to_key.c:67-68 | A scan whose samples equal the previous ones sends nothing |
| GpioToKey.FirstScanLowPins | programs/production/firmware.avr/gpio_to_key.c:21-22 | The first scan sends a press for every pin already low |
| GpioToKey.HeldSamplesSendOnce | programs/production/firmware.avr/gpio_to_key.c:67-68 | Holding the same sample for another scan sends nothing more |
| GpioToKey.Scan | programs/production/firmware.avr/gpio_to_key.c:54-63 | The bit loop sends the presses of one scan |
| GpioToKey.ScanBit | programs/production/firmware.avr/gpio_to_key.c:55-62 | One bit position sends the port B and then the port D press, if they fell |
| GpioToKey.PortPress | programs/production/firmware.avr/gpio_to_key.c:56-61 | A port's bit sends its key code exactly when it fell |
| GpioToKey.Firmware | programs/production/firmware.avr/gpio_to_key.c:48-70 | The main loop sends the presses of every scan, each against the scan before |
| AcmeHw.HeadMaps | programs/acme/acme/hw.cpp:6-29 | Each head's map binds distinct relays, head 1 the low-numbered ones and head 2 the high ones, and the heads share none |
| AcmeHw.MovePause | programs/acme/acme/hw.h:56-57 | The motor pause is the given sleep time, or the arm time when the sleep time is negative |
| AcmeHw.FoldPauseDoubles | programs/acme/acme/hw.cpp:36 | The fold pause is twice the arm time while that fits an `int` |
| AcmeHw.FoldPauseOverflows | programs/acme/acme/hw.cpp:36 | For every arm time from 2^30 up to 2^31, doubling it overflows the 32-bit `int` into a negative value, so the fold moves for the plain arm time |
| AcmeHw.Resolve | programs/acme/acme/hw.cpp:71-77 | The resolved mode is never AS_CONF, and explicit modes are kept |
| AcmeHw.FoldPause | programs/acme/acme/hw.cpp:36 | The fold pause is a 32-bit `int` congruent to twice the arm time modulo 2^32 |
| AcmeHw.StopArmsEvents | programs/acme/acme/hw.h:53-66 | Stopping the arms writes nothing exactly when they are at stop; otherwise it starts with the arm-time pause and ends with the motor off |
| AcmeHw.GoArmsEvents | programs/acme/acme/hw.h:67-79 | Raising the arms writes nothing exactly when they are at go; otherwise it starts with the direction on and ends with it off |
| AcmeHw.FoldEvents | programs/acme/acme/hw.cpp:34-60 | Folding writes nothing exactly when the arms have no position; otherwise seven events, from fold on to fold off |
| AcmeHw.StopEvents | programs/acme/acme/hw.cpp:69-96 | Stop with lights starts with green off and red on; with arms it ends with the motor off unless they were at stop; with lights only, or from stop, it writes at most the two lights |
| AcmeHw.GoEvents | programs/acme/acme/hw.cpp:105-131 | Go with lights starts with red off and green on; with arms it ends with the direction off unless they were at go; with lights only, or from go, it writes at most the two lights |
| AcmeHw.DingEvents | programs/acme/acme/hw.cpp:167-176 | Ringing both bells holds them for 750 microseconds and ends with head 1's and then head 2's bell off |
| AcmeHw.FlashEvents | programs/acme/acme/hw.cpp:180-189 | Flashing both yellows pauses for the tenths given and ends with head 1's and then head 2's yellow off |
| AcmeHw.StopArmsMoves | programs/acme/acme/hw.h:53-66 | Stopping the arms writes nothing when they are already stopped; otherwise it writes direction off, motor on, motor off, and ends with the motor off |
| AcmeHw.GoArmsMoves | programs/acme/acme/hw.h:67-79 | Raising the arms writes nothing when they are already at go; otherwise it writes direction on, motor on, motor off, direction off, and ends with the motor off |
| AcmeHw.FoldMoves | programs/acme/acme/hw.cpp:34-60 | Folding writes nothing from no position; from stop or go it writes fold on, moves the arms and writes fold off |
| AcmeHw.ArmsEndStates | programs/acme/acme/hw.cpp:69-131 | AS_CONF resolves to arms and lights when the arms are enabled, and to lights only otherwise; with lights only the arm state is kept |
| AcmeHw.StopLightOrder | programs/acme/acme/hw.cpp:82-91 | Stop with lights makes green off and then red on its first two relay writes |
| AcmeHw.StopLightsEnd | programs/acme/acme/hw.cpp:82-91 | Stop with lights leaves red on and green off, whatever the arms do afterwards |
| AcmeHw.GoLightOrder | programs/acme/acme/hw.cpp:117-126 | Go with lights makes red off and then green on its first two relay writes |
| AcmeHw.GoLightsEnd | programs/acme/acme/hw.cpp:117-126 | Go with lights leaves green on and red off, whatever the arms do afterwards |
| AcmeHw.ArmsKeepLights | programs/acme/acme/hw.h:53-79 | Moving the arms to stop or to go writes neither the red nor the green relay of the head |
| AcmeHw.StopArmsOnlyNoLights | programs/acme/acme/hw.cpp:86-92 | Stop with arms only writes no light relay |
| AcmeHw.GoArmsOnlyNoLights | programs/acme/acme/hw.cpp:121-127 | Go with arms only writes no light relay |
| AcmeHw.DingEndsOff | programs/acme/acme/hw.cpp:167-176 | Ringing both bells leaves both bells off |
| AcmeHw.FlashEndsOff | programs/acme/acme/hw.cpp:180-189 | Flashing both yellows leaves both yellows off |
| AcmeHw.DingAndFlashEndOff | programs/acme/acme/hw.cpp:147-162 | Ringing and flashing leaves both bells and both yellows off |
| AcmeHw.Head.constructor | programs/acme/acme/hw.h:45 | A new head has no arm position |
| AcmeHw.Head.StopArms | programs/acme/acme/hw.h:53-66 | Logs the stop-arms moves and ends in the stop arm state |
| AcmeHw.Head.GoArms | programs/acme/acme/hw.h:67-79 | Logs the go-arms moves and ends in the go arm state |
| AcmeHw.Head.FoldArms | programs/acme/acme/hw.cpp:34-60 | Logs the fold moves and ends with no arm position |
| AcmeHw.Head.Stop | programs/acme/acme/hw.cpp:69-96 | Logs the stop writes for the resolved mode and ends in the arm state the specification gives |
| AcmeHw.Head.Go | programs/acme/acme/hw.cpp:105-131 | Logs the go writes for the resolved mode and ends in the arm state the specification gives |
| AcmeHw.Head.LightsOff | programs/acme/acme/hw.cpp:135-139 | Writes red off and green off, and keeps the arm state |
| AcmeHw.Head.Bell | programs/acme/acme/hw.h:85-90 | Writes the head's bell on and then off |
| AcmeHw.DingAndFlashBoth | programs/acme/acme/hw.cpp:147-162 | Logs the ring-and-flash sequence on both heads |
| AcmeHw.DingBoth | programs/acme/acme/hw.cpp:167-176 | Logs the bell sequence on both heads |
| AcmeHw.FlashBoth | programs/acme/acme/hw.cpp:180-189 | Logs the yellow flash sequence on both heads |
| AcmeHw.FlashYellows | programs/acme/acme/hw.cpp:180-189 | Logs the yellow flash of both heads for the tenths given |
| AcmeHw.Board.Relay | programs/production/signal-prog/relay.h:84-88 | A relay call appends exactly that write to the board's log |
| AcmeHw.Board.Sleep10 | programs/acme/acme/common.cpp:13-27 | A sleep appends exactly that pause to the board's log |
| AcmeHw.Board.Reset | programs/production/signal-prog/relay.h:89 | A board reset appends exactly the all-off event |
| AcmeHw.Board.USleep | programs/acme/acme/hw.cpp:151 | A microsecond sleep appends exactly that pause |
| AcmeConf.Getline | programs/acme/acme/conf.h:48-59 | A line read from a good stream is its text up to the first line feed; a failed stream leaves the line as it was |
| AcmeConf.ToLower | programs/acme/acme/conf.h:56 | The result is never an upper-case letter; a letter of either case becomes the lower-case letter at the same alphabet position, and every other character is kept |
| AcmeConf.ToLowerIdempotent | programs/acme/acme/conf.h:56 | Lower-casing twice is lower-casing once |
| AcmeConf.ToLowerAlike | programs/acme/acme/conf.h:56 | Two letters lower-case to the same character exactly when they are the same letter in either case |
| AcmeConf.Parse | programs/acme/acme/conf.h:41-61 | The password parsed is the file's first line; neither the password nor the demo name holds a line feed, and the arm time fits a `uint32_t` |
| AcmeConf.Serialise | programs/acme/acme/conf.h:62-82 | The saved file starts with the password and a line feed and ends with the Broadway arms flag's text and a line feed |
| AcmeConf.Flag | programs/acme/acme/conf.h:55-59 | An arms flag is true exactly when its line's first character, lower-cased, is 't' |
| AcmeConf.ParseFiveLines | programs/acme/acme/conf.h:41-61 | The parser takes password, demo name, arm time (by `atol`) and the two arms flags from five lines in order |
| AcmeConf.ParseSerialise | programs/acme/acme/conf.h:41-82 | Parsing the saved file gives back all five fields when password and demo name hold no line feed and the arm time fits a `long` |
| AcmeConf.ArmTimeSaturates | programs/acme/acme/conf.h:53 | An arm time above `LONG_MAX` is saved, and it reads back as `LONG_MAX` |
| AcmeConf.NegativeArmTimeWraps | programs/acme/acme/conf.h:53 | An arm time line of "-1" reads back as 2^32 - 1, above `LONG_MAX` |
| AcmeConf.ShortFileRepeatsFlag | programs/acme/acme/conf.h:58-59 | In a file whose fourth line is not ended by a line feed, the H2 flag repeats the H1 flag, because the fifth `getline` fails and keeps the line |
| AcmeConf.FourLineFileClearsFlag | programs/acme/acme/conf.h:58-59 | In a file of four lines each ended by a line feed, the fifth `getline` erases the line and fails, so the H2 flag is false and the H1 flag is read from the fourth line |
| AcmeConf.ConfigStore.constructor | programs/acme/acme/conf.h:21-24 | A loaded store holds the parse of the file |
| AcmeConf.ConfigStore.Save | programs/acme/acme/conf.h:62-82 | Saving writes the serialised configuration |
| AcmeConf.ConfigStore.SetArmTime | programs/acme/acme/conf.h:87-90 | Changes the arm time only and saves |
| AcmeConf.ConfigStore.SetDemoName | programs/acme/acme/conf.h:94-97 | Changes the demo name only and saves |
| AcmeConf.ConfigStore.SetH1Arms | programs/acme/acme/conf.h:109-113 | Changes the H1 arms flag only and saves |
| AcmeConf.ConfigStore.SetH2Arms | programs/acme/acme/conf.h:114-118 | Changes the H2 arms flag only and saves |
| AcmeCommon.TimespecExact | programs/acme/acme/common.cpp:16-17 | The nanoseconds are whole tenths no larger than `LONG_MAX`, and seconds * 10 + nanoseconds / 10^8 is the time asked for |
| AcmeCommon.TenthsToTimespec | programs/acme/acme/common.cpp:16-17 | The request is one `nanosleep` accepts (nanoseconds below 10^9) and holds the whole seconds of the tenths |
| AcmeCommon.Requests | programs/acme/acme/common.cpp:21-26 | There is at most one request per sleep outcome, and the first request is the time asked for |
| AcmeCommon.RetriesResume | programs/acme/acme/common.cpp:21-26 | Each retry asks for the remainder an interrupted sleep reported, and the loop stops at the first sleep that succeeds |
| AcmeCommon.Sleep10 | programs/acme/acme/common.cpp:13-27 | The loop makes the requests of the specification and returns done exactly when a sleep succeeded |
| AcmeCommon.DoSystem | programs/acme/acme/common.cpp:34-42 | In simulation no command is run, otherwise exactly the command; verbose output only when verbose |
| AcmeTerminal.LineEnd | programs/acme/acme/acme.cpp:102-120 | The line ends at the first timeout, 0xFF byte, carriage return or line feed, or where the keys run out |
| AcmeTerminal.LineFrom | programs/acme/acme/acme.cpp:102-120 | A line read never consumes more keys than there are |
| AcmeTerminal.ReadLineExact | programs/acme/acme/acme.cpp:102-120 | The line holds no line end or 0xFF; a non-empty line is what was typed before the line end, which is consumed and echoed with it |
| AcmeTerminal.ReadTypedLine | programs/acme/acme/acme.cpp:102-120 | A typed line ended by a carriage return or line feed is read back as typed |
| AcmeTerminal.ByteFFIsTimeout | programs/acme/acme/acme.cpp:59-89 | A typed 0xFF byte discards the line exactly as a timeout does |
| AcmeTerminal.GetChar | programs/acme/acme/acme.cpp:59-89 | A timeout and a 0xFF byte both give 0xFF, and every other answer is the byte read |
| AcmeTerminal.SameCharsSameLine | programs/acme/acme/acme.cpp:102-120 | `read_line` depends on the keys only through what `get_char` returns |
| AcmeTerminal.Terminal.GetKey | programs/acme/acme/acme.cpp:69-89 | Returns the next key's character and consumes it, or the timeout byte when none is left |
| AcmeTerminal.Terminal.ReadLine | programs/acme/acme/acme.cpp:102-120 | The loop returns the line of the specification, consumes its keys and echoes what it should |
| AcmeDiagnostic.CommandsFollowHeads | programs/acme/acme/acme.cpp:215-231 | A lower-case part key toggles that part on head 1, and its upper-case key toggles it on head 2 |
| AcmeDiagnostic.Command | programs/acme/acme/acme.cpp:213-263 | A toggling key is a letter; in lower case it toggles that part of head 1, in upper case the same part of head 2; s/S report, q/Q reset, h/H help and x/X leave, each exactly for those two keys |
| AcmeDiagnostic.OnlyPartKeysToggle | programs/acme/acme/acme.cpp:215-231 | Only the part keys toggle a relay, so the spare relays are never toggled |
| AcmeDiagnostic.DiagStep | programs/acme/acme/acme.cpp:211-263 | One key keeps one flag per relay |
| AcmeDiagnostic.DiagRun | programs/acme/acme/acme.cpp:211-263 | The loop keeps one flag per relay, consumes some of the keys, and consumes all of them unless it exits |
| AcmeDiagnostic.DiagStepEffects | programs/acme/acme/acme.cpp:215-252 | 'q' and 'Q' reset the board and clear every flag; a part key flips its flag alone and writes its relay on exactly when the flag becomes set; other keys do nothing |
| AcmeDiagnostic.StartTracks | programs/acme/acme/acme.cpp:182-206 | After the start-up resets all flags are off and match the relays |
| AcmeDiagnostic.DiagStepTracks | programs/acme/acme/acme.cpp:215-252 | Every key keeps the flags equal to the relay levels |
| AcmeDiagnostic.DiagRunTracks | programs/acme/acme/acme.cpp:211-263 | Through the whole loop the flags are the relay levels, and leaving with 'x' leaves every relay off |
| AcmeDiagnostic.ToggleRelay | programs/acme/acme/acme.cpp:155-162 | Flips exactly that relay's flag, keeps the others, and writes the relay on exactly when its new flag is true |
| AcmeDiagnostic.DiagKey | programs/acme/acme/acme.cpp:215-252 | One key updates the flags and writes as the step specification says |
| AcmeDiagnostic.DiagRound | programs/acme/acme/acme.cpp:211-263 | One loop round consumes a key and does the first step of the loop specification |
| AcmeDiagnostic.DiagnosticLoop | programs/acme/acme/acme.cpp:211-263 | The loop ends with the flags, writes, keys and exit of the loop specification |
| AcmeDiagnostic.Diagnostic | programs/acme/acme/acme.cpp:180-265 | The board is reset twice and the confirmation read; only "Yes" then runs the loop from all flags off |
| AcmeDiagnostic.NewFlags | programs/acme/acme/acme.cpp:206 | The flag array starts all false |
| AcmeManual.NextStatePairs | programs/acme/acme/acme.cpp:370-376 | Two steps of the successor table come back to the start |
| AcmeManual.NextState | programs/acme/acme/acme.cpp:370-376 | The next state is always another state, and a go state exactly after a go state |
| AcmeManual.ArmsKeyFoldsWhatItDisables | programs/acme/acme/acme.cpp:336-349 | Exactly 1, 2, 9 and 0 are arm keys; a key folds exactly when it disables, and it folds the head it disables |
| AcmeManual.ArmsKey | programs/acme/acme/acme.cpp:336-349 | With '9' corrected: '1' and '2' work the Alpine arms and '9' and '0' the Broadway ones; '2' and '0' enable |
| AcmeManual.ArmsKeyAsWritten | programs/acme/acme/acme.cpp:336-349 | As written, exactly 1, 2, 9 and 0 are arm keys, and any key that folds folds the Alpine arms and disables |
| AcmeManual.KeyStep | programs/acme/acme/acme.cpp:336-360 | With '9' corrected to fold the Broadway arms (see Findings): 'o' and 'p' ring and flash and leave the signal alone; an arms key sets its own head's flag, keeps the other head's flag and arms, and keeps the arm time and password |
| AcmeManual.NineFoldsWrongHead | programs/acme/acme/acme.cpp:343-346 | As written, '9' folds the Alpine arms but disables the Broadway ones; every other key is as intended |
| AcmeManual.DisableFolds | programs/acme/acme/acme.cpp:336-349 | With '9' corrected (see Findings): after a disabling key the disabled head has no arm position and its flag is cleared, the other head is still, and the motor and fold relays end off |
| AcmeManual.DoCmdRunSuffix | programs/acme/acme/acme.cpp:327-364 | `do_cmd` leaves a suffix of the keys unread |
| AcmeManual.DoCmdRunEnds | programs/acme/acme/acme.cpp:327-364 | `do_cmd` returns the first key it does not handle, lower-cased, after handling every key before it, and waits only when it handles them all |
| AcmeManual.DoCmdRun | programs/acme/acme/acme.cpp:325-365 | With '9' corrected and the intended return value (see Findings): `do_cmd` keeps the signal valid, keeps the arm time and the password, and reads no more keys than there are; it returns a key only after reading one, and returns nothing only when every key was handled |
| AcmeManual.DoCmdReturnAsWritten | programs/acme/acme/acme.cpp:361-362 | As written the value returned is 0 or 1, never 'a', 'b' or 'x' |
| AcmeManual.DoCmdReturn | programs/acme/acme/acme.cpp:361-362 | The intended value returned is 'a', 'b' or 'x' exactly when the key was |
| AcmeManual.ManualShown | programs/acme/acme/acme.cpp:432-448 | Manual mode shows at most one state per command |
| AcmeManual.ManualLeavesAtX | programs/acme/acme/acme.cpp:434-447 | With the intended return value, manual mode leaves exactly at the first 'x', and shows one state per command otherwise |
| AcmeManual.ManualFollowsCommands | programs/acme/acme/acme.cpp:434-447 | Each state shown is the one the command picks, or the successor of the last one |
| AcmeManual.Pick | programs/acme/acme/acme.cpp:434-447 | 'a' and 'b' pick a go state, Alpine's for 'a' and Broadway's for 'b'; any other command keeps the state given |
| AcmeManual.ManualAsWrittenNeverLeaves | programs/acme/acme/acme.cpp:334-447 | With the return value as written, manual mode never leaves and alternates between the two stop states |
| AcmeManual.Returned | programs/acme/acme/acme.cpp:361-362 | `do_cmd` as written returns, for every key, the value of a boolean cast to `char` |
| AcmeManual.DisabledArmsStayStill | programs/acme/acme/acme.cpp:386-420 | The intended state change never moves or drives the motor of a head whose arms are disabled |
| AcmeManual.AlpineGoMovesDisabledArms | programs/acme/acme/acme.cpp:393 | As written, Alpine go drives the Alpine motor and raises its arms when they are disabled and the Broadway ones are enabled |
| AcmeManual.SetState | programs/acme/acme/acme.cpp:381-421 | Corrected `set_state`: a head whose arms are enabled ends at go in its go state and at stop otherwise; a head whose arms are disabled keeps them; the configuration is kept |
| AcmeManual.SetStateAsWritten | programs/acme/acme/acme.cpp:381-421 | As written, Alpine go puts the Alpine arms at go when the Broadway arms are enabled and leaves them otherwise; every other state is as corrected; the configuration is kept |
| AcmeManual.SetSignal | programs/acme/acme/acme.cpp:381-421 | Shows the state as the corrected `set_state` says, each head following its own arms flag (see Findings) |
| AcmeManual.ShowAlpineGo | programs/acme/acme/acme.cpp:388-395 | Rings and flashes first exactly when Broadway is at go (`is_go`, read through `Head.IsGo`), then Broadway to stop, then Alpine to go, then ring and flash again; with the corrected `set_state` the Alpine arms follow their own flag, where line 393 passes the Broadway flag (see Findings) |
| AcmeManual.ShowBroadwayGo | programs/acme/acme/acme.cpp:403-409 | Rings and flashes first exactly when Alpine is at go (`is_go`), then Alpine to stop, then Broadway to go |
| AcmeManual.ShowBothStop | programs/acme/acme/acme.cpp:396-417 | Rings and flashes first exactly when either head is at go (`is_go`), then both heads to stop |
| AcmeManual.ArmsAction | programs/acme/acme/acme.cpp:336-349 | Folds what the corrected key table folds ('9' folds the Broadway arms, where line 344 folds the Alpine ones; see Findings), sets the arms flag, and saves the configuration |
| AcmeManual.DingFlashPause | programs/acme/acme/acme.cpp:353-359 | Rings and flashes both heads |
| AcmeManual.HandleKey | programs/acme/acme/acme.cpp:336-360 | One key's handling gives the step of the specification, with '9' corrected to fold the Broadway arms (see Findings) |
| AcmeManual.DoCmdRound | programs/acme/acme/acme.cpp:329-363 | One round of `do_cmd` reads a key and handles it, or stops and returns the key itself, the intended value where line 362 returns a boolean (see Findings) |
| AcmeManual.DoCmd | programs/acme/acme/acme.cpp:325-365 | With '9' corrected (see Findings), the command loop follows the specification; it returns the intended value of the unhandled key, or waits when the keys run out |
| AcmeManual.ManualFrom | programs/acme/acme/acme.cpp:431-448 | With the intended `do_cmd` return value, '9' corrected and the corrected `set_state` (see Findings): manual mode keeps the arm time stored, consumes some keys, and returns one value per state shown |
| AcmeManual.ManualFromShows | programs/acme/acme/acme.cpp:431-448 | The states shown and the leaving are those of the commands `do_cmd` returned |
| AcmeManual.ManualRound | programs/acme/acme/acme.cpp:434-447 | With the intended `do_cmd` return value, '9' corrected and the corrected `set_state` (see Findings): one round shows a state, runs the commands and picks the next, as the specification says |
| AcmeManual.Leave | programs/acme/acme/acme.cpp:449-451 | Leaving folds both heads' arms |
| AcmeManual.LeaveEvents | programs/acme/acme/acme.cpp:449-451 | Leaving folds the Alpine arms first, then the Broadway arms, seven events for each head with a position, and ends with the board reset |
| AcmeManual.ManualLoop | programs/acme/acme/acme.cpp:431-448 | With the intended `do_cmd` return value, '9' corrected and the corrected `set_state` (see Findings): the loop shows the states the specification gives until 'x' |
| AcmeManual.Manual | programs/acme/acme/acme.cpp:425-452 | With the intended `do_cmd` return value, '9' corrected and the corrected `set_state` (see Findings): manual mode starts at both stop, runs the loop, and folds both heads when it leaves |
| AcmeSettings.U32Value | programs/acme/acme/acme.cpp:523 | `atol` into a `uint32_t` gives a value below 2^32 |
| AcmeSettings.U32ValueOfDigits | programs/acme/acme/acme.cpp:523 | All-digit text converts to its decimal value, saturated at `LONG_MAX` |
| AcmeSettings.ArmTimeAccepts | programs/acme/acme/acme.cpp:510-528 | A new arm time is accepted exactly when it is digits with value 1 to 200, and then it is that value; the empty line is refused |
| AcmeSettings.ArmTimeSaved | programs/acme/acme/acme.cpp:523-528 | An accepted time, saved and parsed back, gives the new time and keeps the other settings |
| AcmeSettings.ArmTimeEntry | programs/acme/acme/acme.cpp:510-528 | An accepted arm time is all digits and between 1 and 200 |
| AcmeSettings.VolumeAccepts | programs/acme/acme/acme.cpp:533-549 | A volume is accepted exactly when it is digits with value at most 100, and then it is that value; the empty line is 0 |
| AcmeSettings.VolumeEntry | programs/acme/acme/acme.cpp:533-549 | An accepted volume is all digits and at most 100 |
| AcmeSettings.VolumeCommand | programs/acme/acme/acme.cpp:551 | The command starts with "amixer set PCM -- " and ends with "%" and a line feed |
| AcmeSettings.VolumeCommandReadsBack | programs/acme/acme/acme.cpp:551 | The number in the command is the volume accepted |
| AcmeSettings.DemoKeyPicksDemo | programs/acme/acme/acme.cpp:466-483 | Exactly 'l', 's' and 'w' set a name, the name starts with the key, and it starts the matching demo program |
| AcmeSettings.DemoName | programs/acme/acme/acme.cpp:466-483 | A stored demo name starts with the key pressed, has at least four letters and holds no line feed |
| AcmeSettings.DemoFor | programs/acme/acme/acme.cpp:292-315 | A demo program is started exactly for a name starting with 'l', 's' or 'w': the long, short and windy demo respectively; an empty name or another letter starts none |
| AcmeSettings.SetDemo | programs/acme/acme/acme.cpp:456-484 | A demo key stores its name and saves; any other key changes nothing |
| AcmeSettings.ArmTime | programs/acme/acme/acme.cpp:489-527 | Without "Yes" nothing changes; with it, an accepted time is stored and saved and anything else changes nothing |
| AcmeSettings.Volume | programs/acme/acme/acme.cpp:528-562 | Returns the mixer command exactly for an accepted volume |
| Power.Decide | programs/production/power/power.cpp:137-167 | The state chosen is never UNKNOWN, and the modifier is "[forced]" or "[scheduled]" |
| Power.DecideRules | programs/production/power/power.cpp:141-166 | The off override wins over the on override; with neither, the power is on exactly from 8:00 up to 19:00 |
| Power.ChangeMessage | programs/production/power/power.cpp:170-186 | A change message starts with "Changing state to " and ends with the modifier |
| Power.ChangeMessageTells | programs/production/power/power.cpp:170-186 | Two change messages are equal only for the same state and modifier |
| Power.ActsOnlyOnChange | programs/production/power/power.cpp:168-198 | A pass does more than sleep exactly when the wanted state is new, and it then logs the change |
| Power.PassActions | programs/production/power/power.cpp:168-198 | Every pass ends with its one-second sleep, and a change starts by raising the control pin (on) or by killing the garden (off) |
| Power.SwitchOrder | programs/production/power/power.cpp:172-195 | Off kills the garden before the pin drops and starts nothing; on raises the pin, then starts the garden, then the button reader, and kills nothing |
| Power.RunEndsAsLastWanted | programs/production/power/power.cpp:137-199 | After a run the state is what the last pass wanted, never UNKNOWN |
| Power.RunFrom | programs/production/power/power.cpp:137-199 | A run does at least one action per sample, and a non-empty run ends with the last pass's one-second sleep |
| Power.FirstPassChanges | programs/production/power/power.cpp:34-168 | The first pass from UNKNOWN always changes the state, and a second pass that wants the same state only sleeps |
| Power.PowerSwitch.constructor | programs/production/power/power.cpp:34 | The scheduler starts in UNKNOWN with nothing done |
| Power.PowerSwitch.Pass | programs/production/power/power.cpp:137-198 | One pass sets the decided state and does the actions of the specification |
| Power.PowerSwitch.Run | programs/production/power/power.cpp:137-199 | The loop ends in the run specification's state with its actions |

## Left out

- Timing: sleeps, semaphore time-outs and dwell times are recorded as events or left out. No clock is modelled.
- Concurrency: the threads are single-threaded steps. What other threads do while a handler waits (the semaphore count, the signal mode, the low-noise flag) is a parameter (`Env`) of each wait. The data race on the mode is not modelled.
- Relay lock: the mutex is a boolean, and relay calls require it to be free. Relocking a held mutex would block for ever.
- Relay errors: the relay functions throw, and the handlers do not catch. The model treats a failed call as ending the program, and the handlers' relay writes are log events that always succeed.
- `read_ch`: a failed `read` after a successful poll is the same as a timeout. The distinct "Read error" is not modelled.
- `relay_setup`: the termios settings, `open`, and the drain of the initial string are left out. Only device discovery and the version check are modelled.
- I/O: libusb enumeration and transfers, evdev `ioctl`/`read`, wiringPi pin access, the UNIX socket server and `cmd_line` are left out. Devices are the bytes or keys they deliver.
- `get_ip_address` is a parameter of the command handler.
- Processes: `fork`/`exec`/`kill`/`waitpid`, the pid files in `kill_garden`, and the demo process start are left out. `start_garden`, `start_button` and `kill_garden` are recorded as actions, and the demo is the program picked.
- Clock reading: `localtime` and its failure exit are left out. The hour is part of each sample.
- Logging and console output: syslog, `std::cout` messages and the help texts are left out, except where a text is a protocol value or a reply.
- `toString` dumps: only the baud line of the MCP2200 dumps is modelled. The log line for a configuration mismatch is left out.
- ButtonMcp.Poll: takes the port byte of each read-all response (`get_IO_Port_Val_bmap`, byte 10) directly rather than the response packet; the comparison of the response with the configuration sent (button_mcp.cpp:819-826) only writes to the system log, so it is not modelled.
- The configuration file's location, found with `access`, and the exit when none is found are left out.
- The volume command is returned, not run or written to `vol_cmd.sh`.
- `isdigit` on characters above 127 (negative `char`) is taken as false.
- `long` is taken as 32 bits wide, as on the target board.
- `handle_bell` is compiled out of garden.cpp and is not modelled.
- The `head` destructor's fold is modelled only where manual mode leaves (`AcmeManual.Leave`).
- The password prompt, `main_loop` menu, `tv_on`/`tv_off` and `main` of acme.cpp are left out. They read keys and call the modelled operations.
- `get_key` in button_avr.cpp: running out of events counts as a read error rather than as blocking for ever.
- The manual-mode text for A_STOP_B_STOP2 is console output, so it is left out.
- AcmeManual.DoCmdRun: the `tcflush` before each key read at acme.cpp:329 discards keys typed ahead; keys are a sequence with no notion of when they were typed, so every key is read in turn and keys left over pass to the next round.
- AcmeManual.DoCmdRun: uses the corrected key table ('9' folds the Broadway arms, not the Alpine ones as line 344 does; as written: `AcmeManual.ArmsKeyAsWritten`) and returns the unhandled key itself, not the boolean of line 362 (as written: `AcmeManual.DoCmdReturnAsWritten`).
- AcmeManual.KeyStep: uses the corrected key table, so '9' keeps the Alpine arms and flag; as written, line 344 folds the Alpine arms (`AcmeManual.ArmsKeyAsWritten`, `AcmeManual.NineFoldsWrongHead`).
- AcmeManual.DisableFolds: is proved over the corrected key table; as written, '9' leaves the Broadway arms where they are and folds the Alpine ones (`AcmeManual.NineFoldsWrongHead`).
- AcmeManual.DoCmd: uses the corrected key table and returns the unhandled key itself, as `AcmeManual.DoCmdRun` does; the as-written members are `AcmeManual.ArmsKeyAsWritten` and `AcmeManual.DoCmdReturnAsWritten`.
- AcmeManual.SetSignal: follows the corrected `set_state` (each head's own arms flag), not line 393 as written; the as-written behaviour is `AcmeManual.SetStateAsWritten`.
- AcmeManual.ManualRound: for the same reason, keys left over after `do_cmd` returns are not flushed before the next round.
- AcmeSettings.SetDemo: `get_char(NO_TIMEOUT)` at acme.cpp:465 blocks until a key comes; in the model running out of keys gives the timeout byte, which is no demo key, so nothing changes.
- AcmeManual.ShowAlpineGo: follows the corrected `set_state` (each head's own arms flag), not line 393 as written; the as-written behaviour is `AcmeManual.SetStateAsWritten`.
- AcmeManual.ArmsAction: follows the corrected key table ('9' folds the Broadway arms), not line 344 as written; the as-written table is `AcmeManual.ArmsKeyAsWritten`.
- AcmeManual.HandleKey: uses the corrected key table, as `AcmeManual.ArmsAction` does.
- AcmeManual.DoCmdRound: returns the unhandled key itself, the intended value, not the boolean of line 362; the as-written value is `AcmeManual.DoCmdReturnAsWritten`.
- AcmeManual.ManualFrom: uses the intended `do_cmd` return value, so 'a', 'b' and 'x' reach manual mode; as written manual mode never leaves (`AcmeManual.ManualAsWrittenNeverLeaves`). It also uses the corrected key table of line 344 (as written: `AcmeManual.ArmsKeyAsWritten`) and the corrected `set_state` of line 393 (as written: `AcmeManual.SetStateAsWritten`).
- AcmeManual.ManualRound: uses the intended `do_cmd` return value, the corrected key table of line 344 and the corrected `set_state` of line 393, as `AcmeManual.ManualFrom` does; the as-written members are `AcmeManual.DoCmdReturnAsWritten`, `AcmeManual.ArmsKeyAsWritten` and `AcmeManual.SetStateAsWritten`.
- AcmeManual.ManualLoop: uses the intended `do_cmd` return value, the corrected key table of line 344 and the corrected `set_state` of line 393, as `AcmeManual.ManualFrom` does; the as-written members are `AcmeManual.DoCmdReturnAsWritten`, `AcmeManual.ArmsKeyAsWritten` and `AcmeManual.SetStateAsWritten`.
- AcmeManual.Manual: uses the intended `do_cmd` return value, the corrected key table of line 344 and the corrected `set_state` of line 393, as `AcmeManual.ManualFrom` does; the as-written members are `AcmeManual.DoCmdReturnAsWritten`, `AcmeManual.ArmsKeyAsWritten` and `AcmeManual.SetStateAsWritten`.
- USB codes: the HID usage codes of the firmware (`KEY_A` = 4, `KEY_M` = 16) come from the Teensy header `usb_keyboard.h`, and the host key codes and the usage-to-key table from the Linux input event codes and HID keyboard driver; none of these is part of this model, and the values are the published ones.
- `AcmeTerminal.Terminal.ReadLine`: `NO_TIMEOUT` reads would block for ever when no key comes; in the model the keys running out count as a timeout.

## Findings

| source | as written | input that shows it | evidently intended | confidence | as-written member | corrected member |
|---|---|---|---|---|---|---|
| programs/acme/acme/acme.cpp:334-335 | `do_cmd` returns `true`/`false` cast to `char`, so `manual` never sees 'a', 'b' or 'x' and cannot be left | any keys, e.g. "x" | `do_cmd` returns the unhandled key, so 'x' leaves manual mode and 'a'/'b' pick a state | not executed | AcmeManual.ManualAsWrittenNeverLeaves | AcmeManual.ManualLeavesAtX |
| programs/acme/acme/acme.cpp:393 | A_GO_B_STOP passes `get_h2_arms()` to `h1.go`, so the Alpine arms move while disabled | Alpine arms disabled, Broadway arms enabled, state A_GO_B_STOP | each head uses its own arms setting | not executed | AcmeManual.AlpineGoMovesDisabledArms | AcmeManual.DisabledArmsStayStill |
| programs/acme/acme/acme.cpp:343-346 | '9' folds the Alpine arms and then disables the Broadway arms, leaving them unfolded | key '9' with both heads' arms at stop | '9' folds the arms it disables, the Broadway ones | not executed | AcmeManual.NineFoldsWrongHead | AcmeManual.ArmsKeyFoldsWhatItDisables |
