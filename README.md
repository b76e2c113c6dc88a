# Wasatch galvo-scanner command layer, in Dafny

This project models the part of the HashtagAlignment repository that drives the Wasatch OCT
scanner's galvanometers to bleach marks into a sample. User geometry (millimetres, seconds) is
turned into the scanner's ASCII serial commands. The commands are sent over a serial port and
timed with sleeps. The model has these parts:

- **Command encoders** (`SerialCommands`, in `serial_commands.dfy`): every `WCommand_*` function.
  Each one returns its scanner line, or `Err` where the source raises `ValueError`. A line is a
  `WireFormat.Line` (keyword and fields). `WireFormat.Render` gives the `"%s %d ..."` text, and
  `WireFormat.ParseRender` proves that every well-formed line reads back from its text.
- **Calibrations** (`Calibration`, `McuCalibration`, `SpanCalibration`): the conversions from
  lengths into device units and from times into seconds, pulse widths and scan counts. They are
  written once over a `Profile` record. The MCU revision is the `Mcu` profile: 2257 and 2207
  units/mm, centre 15000, bounds 5000..25000. The older revision is the `Span` profile: a
  10 mm field over 5081..26032 × 3492..24418.
- **Serial interfaces** (`Transport`, `FlaggedSerial`, `LegacySerial`): the two
  `Wasatch_Serial_Interface_DirectSerial` classes, as Dafny classes.
  - The flagged revision obeys `"disableOutput"` and `"showSerial"`.
  - The legacy revision always writes and echoes, and sleeps only on a unit-tagged time.
  - The port is described by an `Environment`: for each attempt and port, whether it opens and
    what it answers to `ping`.
  - What an interface does is a `Link` value: port, connected flag, lines written, lines printed
    and time slept. Every method is proved equal to a function on `Link`.
- **Drawing procedures**: the three revisions of `Wasatch_Main_Commands.py`.
  - `McuMainCommands` is the newest MCU revision.
  - `WriterMcuMainCommands` is the earlier MCU revision.
  - `LegacyMainCommands` is the oldest, span-calibrated revision.
  - Each procedure is a method that makes exactly the `sendCommand` calls of a list of `Step`s
    (an encoder result and a delay). The lemmas state what those lists contain, when a run
    finishes, what reaches the port and how long it sleeps.
  - `SendSeries` and `Segments` give the shared reasoning about straight-line series and loops
    over lines.
- **Tick-mark script** (`TickmarksScript`): `main()` of the alignment-marker script. That covers
  the tick geometry, the two checks that stop the script before it connects, and the order of
  the sends.

Python's `round` is `Rounding.RoundHalfEven`, `int()` is `Rounding.Trunc` (toward zero), and
`math.ceil` is `Rounding.Ceil`. Division is Python 3's exact division. Quantities are exact reals
in fixed units. A unit tag is kept where the source's behaviour depends on it (`Units.Length`,
`Units.Time`).

Some facts about the code shape the whole model:

- **Device coordinates.** The conversion functions only scale a length by the gain. The
  corrected ramp encoders add the converted offset to the centre, check the bounds and truncate
  with `%d`. As written, every ramp subtracts the start offset
  (WasatchWritter/Code/Wasatch_Serial_Commands.py:514, 547 and 581), and the XY ramp checks no
  bound (line 585); see "## Findings".
- **Range checks.** The code checks only `value <= 255` for the EEPROM byte. It checks no range
  for `a_scans` and no range for the ramp repeat count.
- **No clamping.** The procedures pass their `a_scans` and `b_scans` arguments to the encoders
  unchanged: a short `a_scans` or an odd `b_scans` is sent as given.
- **Connected flag.** Nothing in the code ever clears the connected flag
  (`Transport.ConnectedSticks`).
- **Ports left open.** The port search does not close a port that opened and gave a wrong reply:
  the close is commented out (Wasatch/Code/MCU/Wasatch_Serial_Interface_DirectSerial.py:82-83).
  A failed search can therefore leave a port open, and later sends go to it
  (`Transport.ScanFailureLeavesOpen`, `TickmarksScript.ScriptDrawsWithoutGalvo`).
- **All revisions kept.** Every revision named here is modelled, each with its own calibration
  and interface.

The drawing procedures send or print their ramps through the corrected
`SerialCommands.ScanXYRamp`, not the as-written encoder of
WasatchWritter/Code/Wasatch_Serial_Commands.py:580-587. So every statement about where a line
lands, and every "finishes iff in bounds", holds with the ramp encoder corrected. The members
built on the corrected ramp are:

- in `McuMainCommands`: `BleachLine`, `BleachLineCommands`, `BleachLineRun`, `BleachLineNTimes`,
  `NTimesCommands`, `NTimesOnceRunnable`, `BleachFiducial` and its lemmas, `PrintVolumetricScan`,
  `VolumetricExample`, `PrintVolumetricScanAdjusted`, `PrintVolumetricScanAdjustedScaleAsWritten`,
  `AdjustedKeepsRows` and `AdjustedStopYCounterexample`;
- in `WriterMcuMainCommands`: every procedure, through `McuMainCommands.BleachLineSteps`;
- in `LegacyMainCommands`: `Ramp` and everything that uses it (`BleachLine`, `BleachLineCommands`,
  `BleachLineRun`, the fiducial, grid and line-list lemmas, `Volumetric3D`, `VolumetricCommands`,
  `VolumetricRun`, `VolumetricExample` and `Volumetric3DPrecise`);
- in `TickmarksScript`: the fiducial, the ticks and the volume printout (`FiducialRunnable`,
  `FiducialRun`, `TickRun`, `TicksRun`, `ScriptDraws`, `FinishRun`, `VolumePrints`).

The as-written counterparts use `SerialCommands.ScanXYRampAsWritten`, which
`SerialCommands.XYRampAsWrittenAccepts` shows accepts every request:

- `McuMainCommands.BleachLineRunAsWritten`, `NTimesRunAsWritten`, `VolumetricPrintsAsWritten`,
  `VolumetricExampleAsWritten`, `AdjustedFullyAsWrittenExample` and `OutOfBoundsLineAsWritten`;
- `LegacyMainCommands.RampAsWritten`, `VolumetricRunAsWritten` and `VolumetricExampleAsWritten`;
- `TickmarksScript.TickRunAsWritten` and `VolumePrintsAsWritten`.

The source cannot run as written in places. The model follows the evident intent at each place,
and the module headers list them:

- `servo` at WasatchWritter/Code/Wasatch_Serial_Commands.py:141 and 143 is the `output`
  argument.
- The unbalanced parenthesis at line 264 is dropped, and so is the stray one at line 343.
- `isInstance` at line 185 is `isinstance`.
- `WConvert_Seconds` at line 316 is `WConvert_ToSeconds`.
- The missing colons at lines 393 and 835 are supplied.
- `delayCount` at lines 457-458 is the `delay` argument.
- The undefined `flags` at lines 581-584 is a trailing flags argument.
- The default `true` at line 832 is `True`.
- `!isinstance` at WasatchWritter/Code/Wasatch_Conversions.py:63, 87 and 104 is `not isinstance`.
- Line 67 of that file, after the `return` of `WConvert_ToWasatchUnitsX`, closes two parentheses
  it never opened, so the module does not even parse. The line is unreachable and is dropped.
  Every as-written statement about the WasatchWritter revision (`LegacyMainCommands.SetupRaisesAsWritten`,
  `LegacyMainCommands.BleachLineNeverFinishesAsWritten`, `SpanCalibration.SpanToWasatchUnits`) is
  about the module with that line removed.
- The stray `tY` at Wasatch/Code/MCU/Wasatch_Main_Commands.py:243 is dropped.
- At WasatchWritter/Code/Wasatch_Main_Commands.py:37, 167 and 201, `WCommand_ScanXYRamp` is
  given two point tuples. The model passes the four coordinates, one repeat and no flags.
- The undefined `markWidth` at lines 158-161 is read as the scan width across and the scan height
  up.
- `pixelsHigh` at lines 188-189 is `pixelsTall`.
- `sendcommand` at line 199 is `sendCommand`.
- `5.493 * unitRegistry.microns()` and `4.939 * unitRegistry.microns()` at
  Wasatch/Code/MCU/Wasatch_Main_Commands.py:241-244 call a pint unit, which is not callable (a
  `TypeError`). The model reads them as 5.493 µm and 4.939 µm.
- In the WasatchWritter revision, `WConvert_ToSeconds` (WasatchWritter/Code/Wasatch_Conversions.py:102-106)
  calls `float()` first, which raises on every unit-tagged time. So the pulse-duration and
  pulse-delay set-up sends (WasatchWritter/Code/Wasatch_Main_Commands.py:32-33, 90-91, 114-115,
  137-138) and every scan count raise. The model converts these with a `WConvert_ToSeconds` that
  takes both tagged and bare times, as its own description says. `LegacyMainCommands.SetupRaisesAsWritten`
  and `LegacyMainCommands.BleachLineNeverFinishesAsWritten` state what the text does.

## Model

| member | source | states |
|---|---|---|
| Units.MillimetresPer | Wasatch/Code/MCU/Wasatch_Units.py:17 | every length unit of the registry is a positive number of millimetres |
| Units.SecondsPer | Wasatch/Code/MCU/Wasatch_Units.py:17 | every time unit of the registry is a positive number of seconds |
| Units.LengthTo | WasatchWritter/Code/MCU/Wasatch_Conversions.py:64 | `l.to(u)` carries the unit u and keeps the length: the millimetres are unchanged |
| Units.TimeTo | WasatchWritter/Code/MCU/Wasatch_Conversions.py:103 | `t.to(u)` carries the unit u and keeps the duration in seconds |
| Units.LengthRoundTrip | WasatchWritter/Code/MCU/Wasatch_Conversions.py:64 | converting a tagged length to any unit and back gives the same quantity |
| Units.TimeRoundTrip | WasatchWritter/Code/MCU/Wasatch_Conversions.py:103 | converting a tagged time to any unit and back gives the same quantity |
| WireFormat.NatToBase | WasatchWritter/Code/Wasatch_Serial_Commands.py:186 | the digits of a number are non-empty and never contain a space or a minus; in base 10 all are decimal digits |
| WireFormat.ParseNatToBase | WasatchWritter/Code/Wasatch_Serial_Commands.py:186 | reading back the decimal or hexadecimal digits of n gives n |
| WireFormat.ParseDec | WasatchWritter/Code/Wasatch_Serial_Commands.py:166 | `%d` of any integer, negative included, is one token that reads back as that integer |
| WireFormat.ParseHex | WasatchWritter/Code/Wasatch_Serial_Commands.py:186 | `hex(v)` is one token that reads back as v |
| WireFormat.ParseRenderField | WasatchWritter/Code/Wasatch_Serial_Commands.py:186 | every well-formed field is one token that reads back as the same field |
| WireFormat.SpaceIndex | WasatchWritter/Code/Wasatch_Serial_Commands.py:587 | the first space of a text, or its length when it has none |
| WireFormat.Split | WasatchWritter/Code/Wasatch_Serial_Commands.py:587 | splitting a line at spaces gives at least one token |
| WireFormat.SplitJoin | WasatchWritter/Code/Wasatch_Serial_Commands.py:587 | space-free tokens joined with single spaces split back into the same tokens |
| WireFormat.RenderFields | WasatchWritter/Code/Wasatch_Serial_Commands.py:587 | field k of a line is written as its own token k |
| WireFormat.RenderKeyword | WasatchWritter/Code/Wasatch_Serial_Commands.py:94 | a command with no fields is exactly its keyword, the bare query |
| WireFormat.RenderOne | WasatchWritter/Code/Wasatch_Serial_Commands.py:98 | a command with one integer is the keyword, one space and `%d` of the integer |
| WireFormat.ParseRender | WasatchWritter/Code/Wasatch_Serial_Commands.py:240 | every well-formed line reads back from its text as the same keyword and fields |
| WireFormat.RenderInjective | WasatchWritter/Code/Wasatch_Serial_Commands.py:587 | two well-formed lines with the same text are the same line |
| WireFormat.CommandOk | WasatchWritter/Code/Wasatch_Serial_Commands.py:240 | a valid keyword with any integers is a well-formed line and reads back from its text |
| SerialCommands.Setting | WasatchWritter/Code/Wasatch_Serial_Commands.py:92-98 | with no argument, the bare keyword; a value is accepted iff it lies in lo..hi, and then `keyword value` is sent; otherwise Err |
| SerialCommands.Focus | WasatchWritter/Code/Wasatch_Serial_Commands.py:92-98 | `focus` with no argument; `focus v` iff 0 <= v <= 4095; otherwise ValueError |
| SerialCommands.Foci | WasatchWritter/Code/Wasatch_Serial_Commands.py:114-120 | `foci` with no argument; `foci v` iff 0 <= v <= 255; otherwise ValueError |
| SerialCommands.Toggle | WasatchWritter/Code/Wasatch_Serial_Commands.py:138-147 | accepted iff the output is 1 or 2 and any value is non-negative; `out1`/`out2`, with the value when one is given |
| SerialCommands.WriteEEPROM | WasatchWritter/Code/Wasatch_Serial_Commands.py:184-188 | accepted iff the byte is at most 255; the address in decimal, then the byte as `hex()` writes it |
| SerialCommands.ScanAScans | WasatchWritter/Code/Wasatch_Serial_Commands.py:209-216 | `a_scans` with no argument; otherwise `a_scans int(n)`, whatever n is |
| SerialCommands.ScanBScans | WasatchWritter/Code/Wasatch_Serial_Commands.py:236-243 | `b_scans` with no argument; `b_scans int(n)` iff int(n) is even and within 0..65534; otherwise ValueError |
| SerialCommands.ScanPulseDelay | WasatchWritter/Code/Wasatch_Serial_Commands.py:262-269 | accepted iff the delay, truncated to whole microseconds, is within 3..65535, and that count is sent |
| SerialCommands.ScanPulseDuration | WasatchWritter/Code/Wasatch_Serial_Commands.py:289-296 | accepted iff the duration, rounded half to even in microseconds, is within the documented 0..65535, and that count is sent |
| SerialCommands.ScanPulseDurationAsWritten | WasatchWritter/Code/Wasatch_Serial_Commands.py:292 | as written, the upper bound is 605535 |
| SerialCommands.ScanReturnSetDuration | WasatchWritter/Code/Wasatch_Serial_Commands.py:314-321 | accepted iff the rounded microseconds lie within 0..255; `t_ret us` |
| SerialCommands.Count | WasatchWritter/Code/Wasatch_Serial_Commands.py:340-346 | a 16-bit counter is accepted iff 0 <= v <= 65535, the documented range; `keyword v`, or the bare keyword |
| SerialCommands.CountAsWritten | WasatchWritter/Code/Wasatch_Serial_Commands.py:342 | as written, the counters accept 0..605535 |
| SerialCommands.ScanReturnClockDivider | WasatchWritter/Code/Wasatch_Serial_Commands.py:340-346 | `A_div f` iff 0 <= f <= 65535 |
| SerialCommands.ScanPhaseShift | WasatchWritter/Code/Wasatch_Serial_Commands.py:364-370 | `Phase o` iff 0 <= o <= 65535 |
| SerialCommands.ScanReturnTrigger | WasatchWritter/Code/Wasatch_Serial_Commands.py:389-398 | true sends `trigger 1`, false `trigger 0`, no argument `trigger` |
| SerialCommands.ScanATriggerGap | WasatchWritter/Code/Wasatch_Serial_Commands.py:416-422 | `a_hold n` iff 0 <= n <= 65535 |
| SerialCommands.ScanBTriggerGap | WasatchWritter/Code/Wasatch_Serial_Commands.py:440-446 | `b_hold n` iff 0 <= n <= 65535 |
| SerialCommands.ScanTriggerDelay | WasatchWritter/Code/Wasatch_Serial_Commands.py:455-461 | `trdelay n` iff 0 <= n <= 65535 |
| SerialCommands.ScanTriggerDelayEnable | WasatchWritter/Code/Wasatch_Serial_Commands.py:480-486 | only 0 and 1 are accepted: `trdmode 0` or `trdmode 1` |
| SerialCommands.ScanXRamp | WasatchWritter/Code/Wasatch_Serial_Commands.py:513-519 | accepted iff both ends, centre + converted offset, lie in [MIN_X, MAX_X]; `xramp` of the truncated start, the truncated stop and the repeats |
| SerialCommands.ScanYRamp | WasatchWritter/Code/Wasatch_Serial_Commands.py:546-552 | the same along Y, within [MIN_Y, MAX_Y] |
| SerialCommands.ScanXYRamp | WasatchWritter/Code/Wasatch_Serial_Commands.py:580-587 | accepted iff all four coordinates are in bounds; fields in the order xStart xStop yStart yStop bRepeats |
| SerialCommands.ConvertedAsWritten | WasatchWritter/Code/Wasatch_Serial_Commands.py:514-515 | as written, the flags reach the conversion inside one tuple, so the conversion behaves as if no flag were given |
| SerialCommands.ScanXRampAsWritten | WasatchWritter/Code/Wasatch_Serial_Commands.py:513-519 | as written: start = CENTER_X − conv(start), stop = CENTER_X + conv(stop), flags lost; accepted iff both lie in bounds |
| SerialCommands.ScanYRampAsWritten | WasatchWritter/Code/Wasatch_Serial_Commands.py:546-552 | as written, the same asymmetric sign and lost flags along Y |
| SerialCommands.ScanXYRampAsWritten | WasatchWritter/Code/Wasatch_Serial_Commands.py:580-587 | as written, the line-585 condition is a non-empty tuple, always true: it fails only when a conversion fails, and bounds are never checked |
| SerialCommands.XYRampAsWrittenAccepts | WasatchWritter/Code/Wasatch_Serial_Commands.py:580-587 | as written the XY ramp accepts every request, whatever its flags and bounds; each start is the centre − mm·gain and each stop the centre + mm·gain |
| SerialCommands.ProbeTexts | WasatchWritter/Code/Wasatch_Serial_Commands.py:74-75 | the port search writes exactly `ping\n` and `stop\n` |
| SerialCommands.MotorSetting | WasatchWritter/Code/Wasatch_Serial_Commands.py:711-718 | a motor setting is accepted iff the identifier is one of q, p, i, h; the identifier, then the value when one is given |
| SerialCommands.MotorSetTopSpeed | WasatchWritter/Code/Wasatch_Serial_Commands.py:711-718 | `mmset id [v]` iff id names one of the four motors |
| SerialCommands.MotorSetTopAcceleration | WasatchWritter/Code/Wasatch_Serial_Commands.py:739-746 | `maset id [v]` iff id names one of the four motors |
| SerialCommands.MotorSettingAsWritten | WasatchWritter/Code/Wasatch_Serial_Commands.py:718 | as written, an unknown id gives None, because the ValueError is built but not raised; a known id gives the corrected line |
| SerialCommands.MotorTarget | WasatchWritter/Code/Wasatch_Serial_Commands.py:807-813 | accepted iff the id is the default `a` (all motors) or one of the four; `keyword id` |
| SerialCommands.MotorHome | WasatchWritter/Code/Wasatch_Serial_Commands.py:807-813 | `mgh id` iff id is `a` or a motor; `MotorHome("a")` is `mgh a` |
| SerialCommands.MotorStop | WasatchWritter/Code/Wasatch_Serial_Commands.py:854-860 | `mstop id` iff id is `a` or a motor |
| SerialCommands.MotorIsHome | WasatchWritter/Code/Wasatch_Serial_Commands.py:889-895 | `mih id` iff id is `a` or a motor |
| SerialCommands.MotorTargetAsWritten | WasatchWritter/Code/Wasatch_Serial_Commands.py:808-813 | as written, a known motor gets its own line and any other id falls through to the all-motors `keyword a` |
| SerialCommands.MotorDirection | WasatchWritter/Code/Wasatch_Serial_Commands.py:832-838 | `mgd id 0` forwards and `mgd id 1` backwards, iff id is a motor |
| SerialCommands.MotorDirectionAsWritten | WasatchWritter/Code/Wasatch_Serial_Commands.py:838 | as written, an unknown id gives None instead of an error |
| CommandProperties.FixedGalvoCommands | WasatchWritter/Code/Wasatch_Serial_Commands.py:35-49 | the version and reset commands are exactly `ver` and `reset` |
| CommandProperties.FixedServiceCommands | WasatchWritter/Code/Wasatch_Serial_Commands.py:61-75 | firmware update and ping are exactly `dfu` and `ping` |
| CommandProperties.FixedStopCommands | WasatchWritter/Code/Wasatch_Serial_Commands.py:687-688 | stop is exactly `stop`; the motor information query (871-872) is exactly `minfo` |
| CommandProperties.CountedCommands | WasatchWritter/Code/Wasatch_Serial_Commands.py:651-674 | `scan n`, `ntscan n` (and `eer n`, 164-168) for every integer n, negative included |
| CommandProperties.BareLensQueries | WasatchWritter/Code/Wasatch_Serial_Commands.py:92-120 | with no argument, the lens encoders send `focus` and `foci` |
| CommandProperties.BareSweepQueries | WasatchWritter/Code/Wasatch_Serial_Commands.py:209-243 | with no argument, `a_scans` and `b_scans` |
| CommandProperties.BareDividerQueries | WasatchWritter/Code/Wasatch_Serial_Commands.py:340-370 | with no argument, `A_div` and `Phase` |
| CommandProperties.BarePulseQueries | WasatchWritter/Code/Wasatch_Serial_Commands.py:262-296 | with no argument, `delay` and `pulse` |
| CommandProperties.BareReturnQueries | WasatchWritter/Code/Wasatch_Serial_Commands.py:314-398 | with no argument, `t_ret` and `trigger` |
| CommandProperties.BareHoldQueries | WasatchWritter/Code/Wasatch_Serial_Commands.py:416-446 | with no argument, `a_hold` and `b_hold` |
| CommandProperties.BareTriggerDelayQueries | WasatchWritter/Code/Wasatch_Serial_Commands.py:455-486 | with no argument, `trdelay` and `trdmode` |
| CommandProperties.ScanCommandReadsBack | WasatchWritter/Code/Wasatch_Serial_Commands.py:587 | every scanner command reads back from its text as the same keyword and integers |
| CommandProperties.MotorCommandReadsBack | WasatchWritter/Code/Wasatch_Serial_Commands.py:714 | a motor command reads back with its identifier as a word and its value in decimal |
| CommandProperties.EepromWriteReadsBack | WasatchWritter/Code/Wasatch_Serial_Commands.py:186 | an accepted EEPROM write reads back as the decimal address and the hexadecimal byte |
| CommandProperties.EncodingsDistinct | WasatchWritter/Code/Wasatch_Serial_Commands.py:587 | two different scanner commands never have the same text |
| CommandProperties.XRampReversed | WasatchWritter/Code/Wasatch_Serial_Commands.py:513-519 | swapping a ramp's ends is accepted exactly when the ramp is, and swaps the two coordinate fields |
| CommandProperties.XRampCentred | WasatchWritter/Code/Wasatch_Serial_Commands.py:513-519 | the positions of −l and l mm are symmetric about CENTER_X and 2·l·gain apart |
| CommandProperties.RampSignCollapses | WasatchWritter/Code/Wasatch_Serial_Commands.py:514-515 | as written, the ramp from −l to l has both ends at the same point, on both axes, for every l, unit, flags and calibration |
| CommandProperties.RampSignCounterexample | WasatchWritter/Code/Wasatch_Serial_Commands.py:513-519 | the MCU ramp from −1 to 1 mm is `xramp 17257 17257 1` as written and `xramp 12743 17257 1` corrected |
| CommandProperties.RampFlagsCounterexample | WasatchWritter/Code/Wasatch_Serial_Commands.py:514-516 | ±1000 device units with `wasatchUnits` are refused as written, because they are read as mm, and corrected give `xramp 14000 16000 1` |
| CommandProperties.XYRampUncheckedCounterexample | WasatchWritter/Code/Wasatch_Serial_Commands.py:585 | a 10 mm start offset is sent as written although X lands outside the bounds; the corrected encoder refuses it |
| CommandProperties.PulseBoundCounterexample | WasatchWritter/Code/Wasatch_Serial_Commands.py:292 | 70000 µs passes the 605535 bound as written and is refused by the documented 65535 |
| CommandProperties.CountBoundCounterexample | WasatchWritter/Code/Wasatch_Serial_Commands.py:342-366 | 70000 passes `A_div` and `Phase` as written and is refused within 65535 |
| CommandProperties.TriggerCountBoundCounterexample | WasatchWritter/Code/Wasatch_Serial_Commands.py:418-442 | 70000 passes `a_hold` and `b_hold` as written and is refused within 65535 |
| CommandProperties.TriggerDelayBoundCounterexample | WasatchWritter/Code/Wasatch_Serial_Commands.py:457 | 70000 passes `trdelay` as written and is refused within 65535 |
| CommandProperties.MotorFallbackCounterexample | WasatchWritter/Code/Wasatch_Serial_Commands.py:807-813 | as written, homing or stopping the unknown motor `z` sends `mgh a` / `mstop a`, addressing every motor |
| CommandProperties.MotorNoneCounterexample | WasatchWritter/Code/Wasatch_Serial_Commands.py:711-718 | as written, a top speed, top acceleration or direction for `z` yields None, not an error |
| Calibration.CentersInside | WasatchWritter/Code/MCU/Wasatch_Conversions.py:28-33 | the centres lie strictly inside the bounds of a well-formed profile |
| Calibration.ToWasatchUnits | WasatchWritter/Code/MCU/Wasatch_Conversions.py:57-64 | None iff `wasatchUnits` is given with a tagged length; a bare value comes back unchanged under the flag; otherwise millimetres × gain |
| Calibration.WasatchUnitsIdentity | WasatchWritter/Code/MCU/Wasatch_Conversions.py:57-59 | with `wasatchUnits` both axis conversions return a bare input unchanged |
| Calibration.ConversionLinear | WasatchWritter/Code/MCU/Wasatch_Conversions.py:61-64 | without the flag both conversions are additive in millimetres and map 0 to 0 |
| Calibration.BareIsMillimetres | WasatchWritter/Code/MCU/Wasatch_Conversions.py:61-63 | a bare number converts exactly as the same number of millimetres |
| Calibration.MicrometreScale | WasatchWritter/Code/MCU/Wasatch_Conversions.py:64 | 1000·v µm converts as v mm |
| Calibration.ToSeconds | WasatchWritter/Code/MCU/Wasatch_Conversions.py:99-103 | a bare number or seconds is taken as seconds; microseconds are a millionth |
| Calibration.ToSecondsIdempotent | WasatchWritter/Code/MCU/Wasatch_Conversions.py:99-103 | converting a time already in seconds changes nothing |
| Calibration.Microseconds | WasatchWritter/Code/Wasatch_Serial_Commands.py:264 | `.to(microsecond).magnitude` is a million times the seconds |
| Calibration.SweepSeconds | WasatchWritter/Code/MCU/Wasatch_Conversions.py:126 | one sweep, the pulse period times the pulses per sweep, lasts a positive time |
| Calibration.NumScansFromSecs | WasatchWritter/Code/MCU/Wasatch_Conversions.py:124-126 | n sweeps cover the duration and n − 1 do not |
| Calibration.NumScansFromSecsLeast | WasatchWritter/Code/MCU/Wasatch_Conversions.py:126 | the count is the least number of sweeps that cover the duration |
| Calibration.NumScansFromSecsMonotonic | WasatchWritter/Code/MCU/Wasatch_Conversions.py:126 | a longer duration never needs fewer sweeps |
| Calibration.NumScansFromSecsIgnoresParameters | WasatchWritter/Code/MCU/Wasatch_Conversions.py:124-126 | the pulsePeriod and pulseCount arguments make no difference |
| Calibration.NumScans | WasatchWritter/Code/MCU/Wasatch_Conversions.py:133-140 | defined iff the duty cycle and the pass-pair time are non-zero (the source divides by them) |
| Calibration.NumScansDose | WasatchWritter/Code/MCU/Wasatch_Conversions.py:136-139 | the count is within one half of dose time over pass-pair time |
| Calibration.DoseOverPass | WasatchWritter/Code/MCU/Wasatch_Conversions.py:136-139 | exposure × required passes is the dose time divided by the time of a forward-and-back pass |
| Calibration.RequiredPassesAtDefaultDuty | WasatchWritter/Code/MCU/Wasatch_Conversions.py:135-137 | at the profile's own duty cycle the duty correction cancels: the passes are µs per mm × distance over the pass-pair time |
| Calibration.NumScansZeroExposure | WasatchWritter/Code/MCU/Wasatch_Conversions.py:139 | an exposure of 0 needs 0 passes |
| Calibration.PassesNonNegative | WasatchWritter/Code/MCU/Wasatch_Conversions.py:136-137 | a non-negative distance never needs a negative number of passes |
| Calibration.PulseDuration | WasatchWritter/Code/MCU/Wasatch_Conversions.py:152-153 | the on-time is within half a microsecond of duty × period, and even at an exact tie, as Python's `round` |
| Calibration.PulseDelay | WasatchWritter/Code/MCU/Wasatch_Conversions.py:162-163 | the off-time is within half a microsecond of (1 − duty) × period, and even at an exact tie, as Python's `round` |
| Calibration.PulsePartition | WasatchWritter/Code/MCU/Wasatch_Conversions.py:152-163 | for an even period, on-time + off-time fill the period exactly, whatever the duty cycle |
| Calibration.XPosition | WasatchWritter/Code/Wasatch_Serial_Commands.py:515 | defined iff the offset converts; it lies the converted offset away from CENTER_X |
| Calibration.YPosition | WasatchWritter/Code/Wasatch_Serial_Commands.py:548 | defined iff the offset converts; it lies the converted offset away from CENTER_Y |
| Calibration.CentredConversion | WasatchWritter/Code/Wasatch_Serial_Commands.py:514-515 | 0 mm is the centre, and the positions of L and −L lie 2·L·gain apart |
| Calibration.XReach | WasatchWritter/Code/Wasatch_Serial_Commands.py:516 | a mm offset is in bounds iff it lies within (CENTER − MIN)/gain below and (MAX − CENTER)/gain above the centre |
| Calibration.YReach | WasatchWritter/Code/Wasatch_Serial_Commands.py:549 | the same along Y |
| McuCalibration.McuOk | WasatchWritter/Code/MCU/Wasatch_Conversions.py:26-33 | the MCU constants make a well-formed profile |
| McuCalibration.McuCentres | WasatchWritter/Code/MCU/Wasatch_Conversions.py:28-33 | CENTER_X = CENTER_Y = 15000, strictly between 5000 and 25000 |
| McuCalibration.McuBareConversion | WasatchWritter/Code/MCU/Wasatch_Conversions.py:61-64 | a bare v converts to v·2257 along X and v·2207 along Y |
| McuCalibration.McuDefaultPulse | WasatchWritter/Code/MCU/Wasatch_Conversions.py:152-163 | the default pulse is 75 µs on and 25 µs off, 100 µs together |
| McuCalibration.McuSweep | WasatchWritter/Code/MCU/Wasatch_Conversions.py:38-39 | a sweep of 100 pulses of 100 µs lasts 0.01 s, and PulsesPerSweep() is 100 |
| McuCalibration.McuNumScansFromSecs | WasatchWritter/Code/MCU/Wasatch_Conversions.py:124-126 | the count is the least n with n·0.01 s covering the duration |
| McuCalibration.McuOneSecond | WasatchWritter/Code/MCU/Wasatch_Conversions.py:124-126 | one second is 100 sweeps |
| SpanCalibration.SpanOk | WasatchWritter/Code/Wasatch_Conversions.py:26-41 | the span constants make a well-formed profile |
| SpanCalibration.SpanCentres | WasatchWritter/Code/Wasatch_Conversions.py:26-31 | CENTER_X = 15556.5 and CENTER_Y = 13955 |
| SpanCalibration.SpanGains | WasatchWritter/Code/Wasatch_Conversions.py:29-34 | the gains are (MAX − MIN)/10 mm: 2095.1 and 2092.6 per mm |
| SpanCalibration.SpanToWasatchUnits | WasatchWritter/Code/Wasatch_Conversions.py:58-65 | float() comes first, so a tagged length is refused; under the flag the float comes back; otherwise span/10 mm per mm (Y at 82-89 alike) |
| SpanCalibration.SpanAgreesOnBare | WasatchWritter/Code/Wasatch_Conversions.py:58-65 | on bare numbers the span conversions equal the generic ones on the Span profile |
| SpanCalibration.FieldCoversSpan | WasatchWritter/Code/Wasatch_Conversions.py:65 | conv(5 mm) − conv(−5 mm) is exactly MAX − MIN on both axes |
| SpanCalibration.SpanWasatchUnitsIdentity | WasatchWritter/Code/Wasatch_Conversions.py:59-61 | with `wasatchUnits` a bare number comes back unchanged |
| SpanCalibration.ToSeconds | WasatchWritter/Code/Wasatch_Conversions.py:102-106 | float() first: only a bare number is accepted, taken as seconds |
| Rounding.Ceil | WasatchWritter/Code/MCU/Wasatch_Conversions.py:126 | `math.ceil`: the least integer not below x |
| Rounding.Trunc | WasatchWritter/Code/Wasatch_Serial_Commands.py:211 | `int()`: toward zero, for both signs |
| Rounding.RoundHalfEven | WasatchWritter/Code/MCU/Wasatch_Conversions.py:153 | `round()`: the nearest integer, and the even one at an exact half |
| Rounding.CeilLeast | WasatchWritter/Code/MCU/Wasatch_Conversions.py:126 | ceil is below every integer that is not below x |
| Rounding.CeilMonotonic | WasatchWritter/Code/MCU/Wasatch_Conversions.py:126 | ceil preserves order |
| Rounding.RoundUnique | WasatchWritter/Code/MCU/Wasatch_Conversions.py:153 | the two conditions of round's contract pin down its result |
| Rounding.RoundMonotonic | WasatchWritter/Code/MCU/Wasatch_Conversions.py:139 | round preserves order |
| Rounding.RoundComplement | WasatchWritter/Code/MCU/Wasatch_Conversions.py:152-163 | round(x) + round(m − x) == m for an even m, ties included |
| Transport.ExecAppend | Wasatch/Code/MCU/Wasatch_Main_Commands.py:161-173 | running two lists of calls is running the first and, if it finished, the second from where it left off |
| Transport.ExecStep | Wasatch/Code/MCU/Wasatch_Main_Commands.py:55-62 | one more call either extends a run or ends the whole procedure there |
| Transport.ExecKeepsPort | Wasatch/Code/MCU/Wasatch_Serial_Interface_DirectSerial.py:50-55 | sending never changes the port or the connected flag; without writing, the wire is untouched |
| Transport.ExecDeliversPrefix | Wasatch/Code/MCU/Wasatch_Serial_Interface_DirectSerial.py:50-55 | what a run writes is a prefix of its lines, in order: nothing reordered or invented |
| Transport.ExecComplete | Wasatch/Code/MCU/Wasatch_Serial_Interface_DirectSerial.py:50-55 | a finished run had every command encode and wrote every line, in order |
| Transport.ExecEncoded | Wasatch/Code/MCU/Wasatch_Main_Commands.py:55-62 | a finished run had every encoder succeed |
| Transport.ExecWire | Wasatch/Code/MCU/Wasatch_Serial_Interface_DirectSerial.py:51-52 | a finished run wrote every line with its newline when writing is on, and nothing otherwise |
| Transport.ExecSleeps | Wasatch/Code/MCU/Wasatch_Serial_Interface_DirectSerial.py:55 | a finished run could sleep every delay it was given |
| Transport.ExecCompleteConsole | Wasatch/Code/MCU/Wasatch_Serial_Interface_DirectSerial.py:53-55 | a finished run echoed each line when echoing is on and slept the sum of its delays |
| Transport.ExecEchoes | Wasatch/Code/MCU/Wasatch_Serial_Interface_DirectSerial.py:53-54 | a finished run printed `Command is: …` for each line iff echoing is on |
| Transport.ExecElapsed | Wasatch/Code/MCU/Wasatch_Serial_Interface_DirectSerial.py:55 | a finished run slept exactly the sum of its delays |
| Transport.DisabledRunWritesNothing | Wasatch/Code/MCU/Wasatch_Serial_Interface_DirectSerial.py:51-52 | with `disableOutput` nothing is written even without a port, and the run finishes when its commands encode and delays are non-negative |
| Transport.ExecAbort | Wasatch/Code/MCU/Wasatch_Main_Commands.py:55-62 | once a call raises, no later call of the procedure is made |
| Transport.TotalDelayAppend | Wasatch/Code/MCU/Wasatch_Serial_Interface_DirectSerial.py:55 | the delays of two lists of calls add up |
| Transport.ExecSucceeds | Wasatch/Code/MCU/Wasatch_Serial_Interface_DirectSerial.py:50-55 | a run finishes when every command encodes, a port is open whenever it writes, and every delay can be slept |
| Transport.RunnableAppend | Wasatch/Code/MCU/Wasatch_Main_Commands.py:161-173 | two runnable lists of calls make a runnable list |
| Transport.ExecAll | Wasatch/Code/MCU/Wasatch_Serial_Interface_DirectSerial.py:50-55 | runnable calls on an open port finish, delivering and echoing every line and sleeping every delay |
| Transport.TwoStepDelay | Wasatch/Code/MCU/Wasatch_Serial_Interface_DirectSerial.py:55 | two calls sleep their two delays |
| Transport.ExecNeedsPort | Wasatch/Code/MCU/Wasatch_Serial_Interface_DirectSerial.py:52 | a run that writes and finishes had an open port before its first send |
| Transport.ShownSend | Wasatch/Code/MCU/Wasatch_Serial_Interface_DirectSerial.py:76 | a probe send on an open port writes the line and echoes it, and sleeps nothing |
| Transport.LegacyIgnoresFlags | WasatchWritter/Code/Wasatch_Serial_Interface_DirectSerial.py:59-62 | the legacy send does the same whatever flags are given |
| Transport.ScanFinds | Wasatch/Code/MCU/Wasatch_Serial_Interface_DirectSerial.py:64-85 | the search succeeds iff some port answers `A` within the five attempts |
| Transport.ScanKeeps | Wasatch/Code/MCU/Wasatch_Serial_Interface_DirectSerial.py:64-85 | the search never changes the connected flag, and only adds writes and console lines |
| Transport.TwoShown | Wasatch/Code/MCU/Wasatch_Serial_Interface_DirectSerial.py:76-79 | the ping and the stop on a freshly opened port are written and echoed in that order |
| Transport.ProbesLeftInAttempt | Wasatch/Code/MCU/Wasatch_Serial_Interface_DirectSerial.py:66-67 | the rest of an attempt is one probe per remaining port, then the later attempts |
| Transport.ProbesLeftTotal | Wasatch/Code/MCU/Wasatch_Serial_Interface_DirectSerial.py:66-67 | the search is at most five attempts over every listed port |
| Transport.ScanBounded | Wasatch/Code/MCU/Wasatch_Serial_Interface_DirectSerial.py:66-85 | from any position, the search writes at most one line per remaining probe plus one, and prints at most one per probe plus two |
| Transport.FindPortBounded | Wasatch/Code/MCU/Wasatch_Serial_Interface_DirectSerial.py:63-85 | `_findPort` writes at most 5·ports + 1 lines and prints at most 5·ports + 3 |
| Transport.GreetedIsGreeted | Wasatch/Code/MCU/Wasatch_Serial_Interface_DirectSerial.py:76-81 | the state after greeting a port is that port, open, its last writes ping and stop and its console ending with their echoes and the greeting |
| Transport.ScanSuccess | Wasatch/Code/MCU/Wasatch_Serial_Interface_DirectSerial.py:76-81 | success leaves an open port whose last writes are ping then stop, and the console ending with their echoes and `Galvo connection initialized.` |
| Transport.ScanFailure | Wasatch/Code/MCU/Wasatch_Serial_Interface_DirectSerial.py:84-85 | failure ends the console with `No serial ports found for the galvo.` |
| Transport.ScanFailureLeavesOpen | Wasatch/Code/MCU/Wasatch_Serial_Interface_DirectSerial.py:72-85 | a port that opens and does not answer `A` is not closed, so a failed search whose last probe opened leaves that port open |
| Transport.Reconnect | Wasatch/Code/MCU/Wasatch_Serial_Interface_DirectSerial.py:43-47 | found iff some port answers; connected afterwards iff it was before or the search succeeded |
| Transport.ConnectedSticks | Wasatch/Code/MCU/Wasatch_Serial_Interface_DirectSerial.py:43-47 | a failed reconnection never clears the connected flag |
| Transport.Close | Wasatch/Code/MCU/Wasatch_Serial_Interface_DirectSerial.py:58-59 | raises iff no port object was ever made; otherwise the port is closed and nothing else changes |
| Transport.SendAfterClose | Wasatch/Code/MCU/Wasatch_Serial_Interface_DirectSerial.py:58-59 | after close, every send that writes raises and nothing reaches the wire |
| FlaggedSerial.DirectSerial.constructor | Wasatch/Code/MCU/Wasatch_Serial_Interface_DirectSerial.py:36-37 | a new interface starts disconnected with no port and searches at once |
| FlaggedSerial.DirectSerial.ConnectedToMicroscope | Wasatch/Code/MCU/Wasatch_Serial_Interface_DirectSerial.py:39-40 | returns the connected flag |
| FlaggedSerial.DirectSerial.ReconnectToMicroscope | Wasatch/Code/MCU/Wasatch_Serial_Interface_DirectSerial.py:43-47 | the new state and result are those of `Transport.Reconnect` |
| FlaggedSerial.DirectSerial.SendCommand | Wasatch/Code/MCU/Wasatch_Serial_Interface_DirectSerial.py:50-55 | write `command\n` unless `disableOutput` (raising without an open port), echo with `showSerial`, then sleep the delay (raising when negative) |
| FlaggedSerial.DirectSerial.Close | Wasatch/Code/MCU/Wasatch_Serial_Interface_DirectSerial.py:58-59 | the new state and result are those of `Transport.Close` |
| FlaggedSerial.DirectSerial.FindPort | Wasatch/Code/MCU/Wasatch_Serial_Interface_DirectSerial.py:64-85 | five rounds over the ports: a port that cannot be made is skipped, an open one is pinged, and the first to answer `A` is sent stop and kept |
| FlaggedSerial.DirectSerial.Run | Wasatch/Code/MCU/Wasatch_Main_Commands.py:52-62 | a procedure's calls made in turn: an encoder or a send that raises ends the procedure |
| LegacySerial.DirectSerial.constructor | WasatchWritter/Code/Wasatch_Serial_Interface_DirectSerial.py:45-46 | a new interface starts disconnected with no port and searches at once |
| LegacySerial.DirectSerial.ConnectedToMicroscope | WasatchWritter/Code/Wasatch_Serial_Interface_DirectSerial.py:48-49 | returns the connected flag |
| LegacySerial.DirectSerial.ReconnectToMicroscope | WasatchWritter/Code/Wasatch_Serial_Interface_DirectSerial.py:52-56 | the new state and result are those of `Transport.Reconnect` |
| LegacySerial.DirectSerial.SendCommand | WasatchWritter/Code/Wasatch_Serial_Interface_DirectSerial.py:59-62 | always write and echo, then sleep a tagged delay, 0 s by default; a bare or negative delay raises |
| LegacySerial.DirectSerial.Close | WasatchWritter/Code/Wasatch_Serial_Interface_DirectSerial.py:65-66 | the new state and result are those of `Transport.Close` |
| LegacySerial.DirectSerial.FindPort | WasatchWritter/Code/Wasatch_Serial_Interface_DirectSerial.py:71-92 | the same five-round search (`_RECONNECTIONATTEMPTS`, 99), with the unconditional echo |
| LegacySerial.DirectSerial.Run | WasatchWritter/Code/Wasatch_Main_Commands.py:30-39 | a procedure's calls made in turn, each with its own delay |
| SendSeries.Series | Wasatch/Code/MCU/Wasatch_Main_Commands.py:55-62 | every set-up command with no delay, then the last with the wait |
| SendSeries.SeriesEncoded | Wasatch/Code/MCU/Wasatch_Main_Commands.py:55-62 | a series encodes exactly when each of its commands does |
| SendSeries.SeriesDelay | Wasatch/Code/MCU/Wasatch_Main_Commands.py:62 | a series sleeps exactly its final wait |
| SendSeries.SeriesRun | Wasatch/Code/MCU/Wasatch_Main_Commands.py:52-62 | a series finishes iff every command encodes; then each line is delivered and echoed in order and the run sleeps the final wait |
| SendSeries.SeriesStops | Wasatch/Code/MCU/Wasatch_Main_Commands.py:55-60 | when set-up command j is the first to fail, exactly the j lines before it are sent |
| Segments.EachAppend | Wasatch/Code/MCU/Wasatch_Main_Commands.py:161-173 | drawing two lists of lines is drawing the first, then the second |
| Segments.EachAt | Wasatch/Code/MCU/Wasatch_Main_Commands.py:163-173 | with n calls per line, calls j·n .. (j+1)·n − 1 draw line j |
| Segments.EachRunnable | Wasatch/Code/MCU/Wasatch_Main_Commands.py:163-173 | lines whose calls are all runnable make a runnable list |
| Segments.EachDelay | Wasatch/Code/MCU/Wasatch_Main_Commands.py:163-173 | when every line takes t, the list takes t once per line |
| Segments.ExecEachNext | Wasatch/Code/MCU/Wasatch_Main_Commands.py:163-167 | one turn of a drawing loop continues the run, or ends the whole procedure if the line raises |
| Segments.RepeatedSum | Wasatch/Code/MCU/Wasatch_Main_Commands.py:163-173 | waiting m times then n times is waiting m + n times |
| Segments.RepeatedIsProduct | Wasatch/Code/MCU/Wasatch_Main_Commands.py:163-173 | n waits of t take n·t |
| McuMainCommands.SetupCommands | Wasatch/Code/MCU/Wasatch_Main_Commands.py:55-58 | the set-up encodes as `pulse 75`, `delay 25`, `a_scans 100`, `b_scans 0` |
| McuMainCommands.BleachLine | Wasatch/Code/MCU/Wasatch_Main_Commands.py:52-62 | with the ramp encoder corrected, the interface's new state and result are those of running the six calls |
| McuMainCommands.BleachLineCommands | Wasatch/Code/MCU/Wasatch_Main_Commands.py:55-60 | pulse, delay, a_scans, b_scans, then the ramp, which alone can fail; with the ramp encoder corrected it fails iff an end is out of bounds |
| McuMainCommands.BleachLineTiming | Wasatch/Code/MCU/Wasatch_Main_Commands.py:62 | the only wait is the duration, after `scan n`, and n is the least count of 0.01 s sweeps covering it |
| McuMainCommands.BleachLineRun | Wasatch/Code/MCU/Wasatch_Main_Commands.py:52-62 | with the ramp encoder corrected, on an open port (or with `disableOutput`) and a non-negative duration, it finishes iff the line is in bounds: all six lines are written and the duration is waited; otherwise only the four set-up lines are written |
| McuMainCommands.BleachLineExample | Wasatch/Code/MCU/Wasatch_Main_Commands.py:60 | a 1 mm line from the centre ramps `xy_ramp 15000 17257 15000 15000 1` |
| McuMainCommands.RampExample | WasatchWritter/Code/Wasatch_Serial_Commands.py:580-587 | the same ramp from the encoder directly |
| McuMainCommands.RampExampleEnds | WasatchWritter/Code/Wasatch_Serial_Commands.py:580-587 | that ramp's ends are in bounds at 15000 and 17257 across and 15000 up |
| McuMainCommands.BarePosition | WasatchWritter/Code/Wasatch_Serial_Commands.py:580-584 | a bare v lands at 15000 + 2257·v across and 15000 + 2207·v up |
| McuMainCommands.BleachLineOneSecond | Wasatch/Code/MCU/Wasatch_Main_Commands.py:62 | one second sends `scan 100` |
| McuMainCommands.BleachLineCommandsAsWritten | Wasatch/Code/MCU/Wasatch_Main_Commands.py:55-60 | as written all five set-up commands encode: pulse 75, delay 25, a_scans 100, b_scans 0 and `xy_ramp` 15000 − 2257·x0, 15000 + 2257·x1, 15000 − 2207·y0, 15000 + 2207·y1 (mm, truncated) |
| McuMainCommands.BleachLineRunAsWritten | Wasatch/Code/MCU/Wasatch_Main_Commands.py:52-62 | as written, on an open port (or with `disableOutput`) and a non-negative duration, it always finishes wherever the line lies: all six lines are written and the duration is waited |
| McuMainCommands.OutOfBoundsLineAsWritten | Wasatch/Code/MCU/Wasatch_Main_Commands.py:52-62 | a line starting 10 mm off the centre finishes as written but not with the ramp encoder corrected |
| McuMainCommands.PulsePeriodUs | Wasatch/Code/MCU/Wasatch_Main_Commands.py:106 | the period line 106 computes, pulse plus delay, is the profile's pulse period |
| McuMainCommands.BleachLineNTimes | Wasatch/Code/MCU/Wasatch_Main_Commands.py:100-113 | with the ramp encoder corrected, the interface's new state and result are those of running the eight calls |
| McuMainCommands.NTimesZeroSendsNothing | Wasatch/Code/MCU/Wasatch_Main_Commands.py:102 | with numScans = 0 it raises before anything is sent or printed |
| McuMainCommands.NTimesCommands | Wasatch/Code/MCU/Wasatch_Main_Commands.py:104-111 | pulse 75, delay 25, a_scans, b_scans 0, A_div 1, t_ret 100 and the ramp, which alone can fail (with the ramp encoder corrected, iff out of bounds) |
| McuMainCommands.PassPulsesScale | Wasatch/Code/MCU/Wasatch_Main_Commands.py:102-106 | 2·numScans passes of the given pulse count fill the duration exactly |
| McuMainCommands.NTimesPassFits | Wasatch/Code/MCU/Wasatch_Main_Commands.py:106 | the a_scans count is the number of whole pulse periods in one forward pass |
| McuMainCommands.NTimesTiming | Wasatch/Code/MCU/Wasatch_Main_Commands.py:113 | the only wait is the duration, after `scan numScans` |
| McuMainCommands.NTimesOnceRunnable | Wasatch/Code/MCU/Wasatch_Main_Commands.py:100-113 | with the ramp encoder corrected, one pass over an in-bounds line with a non-negative duration encodes and can sleep |
| McuMainCommands.NTimesRunAsWritten | Wasatch/Code/MCU/Wasatch_Main_Commands.py:100-113 | as written, on an open port and a non-negative duration it finishes iff numScans ≠ 0, wherever the line lies; then all eight lines are written and the duration waited |
| McuMainCommands.HorizontalLines | Wasatch/Code/MCU/Wasatch_Main_Commands.py:163-166 | one horizontal line per ratio |
| McuMainCommands.VerticalLines | Wasatch/Code/MCU/Wasatch_Main_Commands.py:169-172 | one vertical line per ratio |
| McuMainCommands.DrawLine | Wasatch/Code/MCU/Wasatch_Main_Commands.py:167 | one fiducial line is one BleachLineNTimes with one pass |
| McuMainCommands.BleachFiducial | Wasatch/Code/MCU/Wasatch_Main_Commands.py:161-173 | the calls are those of the horizontal lines, then the vertical lines |
| McuMainCommands.DrawHorizontal | Wasatch/Code/MCU/Wasatch_Main_Commands.py:163-167 | the first loop: each horizontal line in turn, stopping at the first that raises |
| McuMainCommands.DrawVertical | Wasatch/Code/MCU/Wasatch_Main_Commands.py:169-173 | the second loop: each vertical line in turn, stopping at the first that raises |
| McuMainCommands.FiducialGeometry | Wasatch/Code/MCU/Wasatch_Main_Commands.py:163-173 | a horizontal line for ratio r lies at y = cy + r·gap across cx ± L/2; a vertical one at x = cx + r·gap across cy ± L/2 |
| McuMainCommands.FiducialCalls | Wasatch/Code/MCU/Wasatch_Main_Commands.py:161-173 | \|H\| + \|V\| calls of eight commands, the horizontal lines first in list order; the duration is waited once per line |
| McuMainCommands.FiducialExample | Wasatch/Code/MCU/Wasatch_Main_Commands.py:163-173 | the 5 mm mark with a 50 µm gap: lines at y = ∓0.05, then at x = −0.05, 0, 0.1 |
| McuMainCommands.PrintVolumetricScan | Wasatch/Code/MCU/Wasatch_Main_Commands.py:207-210 | with the ramp encoder corrected: sends nothing; prints the ramp between the two instructions iff it encodes, otherwise only the first line before raising. GCommand_TutorialVolumetricScan at WasatchWritter/Code/MCU/Wasatch_Main_Commands.py:155-158 is the same code and is this member |
| McuMainCommands.VolumetricExample | Wasatch/Code/MCU/Wasatch_Main_Commands.py:207-210 | with the ramp encoder corrected, the 2 mm square, ten times, prints `xy_ramp 12743 17257 12793 17207 10` |
| McuMainCommands.PrintVolumetricScanAsWritten | Wasatch/Code/MCU/Wasatch_Main_Commands.py:207-210 | as written the intro comes first, and a finished printout is intro, ramp, outro |
| McuMainCommands.VolumetricPrintsAsWritten | Wasatch/Code/MCU/Wasatch_Main_Commands.py:207-210 | as written every volumetric print finishes, its ramp 15000 − 2257·x0, 15000 + 2257·x1, 15000 − 2207·y0, 15000 + 2207·y1 (mm, truncated) |
| McuMainCommands.VolumetricExampleAsWritten | Wasatch/Code/MCU/Wasatch_Main_Commands.py:207-210 | as written the 2 mm square, ten times, prints `xy_ramp 17257 17257 17207 17207 10` |
| McuMainCommands.PrintVolumetricScanAdjusted | Wasatch/Code/MCU/Wasatch_Main_Commands.py:240-245 | with the ramp encoder corrected: sends nothing; finishes iff the corrected ends (x ↦ 1.026409·x + 5.493 µm, y ↦ 1.0269·y + 4.939 µm) are in bounds, and then prints the instructions around the `xy_ramp` of the corrected device positions; otherwise only the first line |
| McuMainCommands.AdjustedKeepsRows | Wasatch/Code/MCU/Wasatch_Main_Commands.py:243-244 | with one Y scale and the ramp encoder corrected, a scan along X (two Y ends of the same length, in any units) keeps its Y start and stop equal |
| McuMainCommands.AdjustedStopYCounterexample | Wasatch/Code/MCU/Wasatch_Main_Commands.py:244 | with line 244's scale as written and the ramp encoder corrected, the row from (0, 1 mm) to (1 mm, 1 mm) prints Y ends 17277 and 17267 |
| McuMainCommands.AdjustedFullyAsWrittenExample | Wasatch/Code/MCU/Wasatch_Main_Commands.py:240-245 | fully as written (1.02269 scale and as-written ramp) the row from (0, 1 mm) to (1 mm, 1 mm) prints `xy_ramp 14987 17329 12722 17267 1` |
| WriterMcuMainCommands.BleachFiducial | WasatchWritter/Code/MCU/Wasatch_Main_Commands.py:109-121 | the calls are those of the yRatios lines across, then the xRatios lines up |
| WriterMcuMainCommands.DrawLine | WasatchWritter/Code/MCU/Wasatch_Main_Commands.py:115 | one fiducial line is one BleachLine |
| WriterMcuMainCommands.DrawAcross | WasatchWritter/Code/MCU/Wasatch_Main_Commands.py:111-115 | the first loop, stopping at the first line that raises |
| WriterMcuMainCommands.DrawUp | WasatchWritter/Code/MCU/Wasatch_Main_Commands.py:117-121 | the second loop, stopping at the first line that raises |
| WriterMcuMainCommands.FiducialCalls | WasatchWritter/Code/MCU/Wasatch_Main_Commands.py:109-121 | \|yRatios\| + \|xRatios\| BleachLine calls of six sends, the yRatios lines first; one wait of the duration per line |
| LegacyMainCommands.ScanCountCovers | WasatchWritter/Code/Wasatch_Conversions.py:127-128 | the scan count is the least number of 0.01 s sweeps covering the duration |
| LegacyMainCommands.DefaultSleepsNothing | WasatchWritter/Code/Wasatch_Serial_Interface_DirectSerial.py:59 | the default delay 0 s can be slept, for no time |
| LegacyMainCommands.SetupCommands | WasatchWritter/Code/Wasatch_Main_Commands.py:32-35 | the set-up encodes as `pulse 75`, `delay 25`, `a_scans 100`, `b_scans 0` |
| LegacyMainCommands.SetupOk | WasatchWritter/Code/Wasatch_Main_Commands.py:32-35 | every set-up command encodes |
| LegacyMainCommands.SetupSteps | WasatchWritter/Code/Wasatch_Main_Commands.py:90-93 | the four set-up sends, each with the default delay |
| LegacyMainCommands.NoWait | WasatchWritter/Code/Wasatch_Serial_Interface_DirectSerial.py:59 | calls that all take the default delay sleep for nothing |
| LegacyMainCommands.SpanPosition | WasatchWritter/Code/Wasatch_Conversions.py:58-65 | a bare v lands at 15556.5 + 2095.1·v across and 13955 + 2092.6·v up |
| LegacyMainCommands.RampAsWritten | WasatchWritter/Code/Wasatch_Serial_Commands.py:580-587 | as written the span ramp always encodes: `xy_ramp` 15556.5 − 2095.1·x0, 15556.5 + 2095.1·x1, 13955 − 2092.6·y0, 13955 + 2092.6·y1 (truncated), one repeat |
| LegacyMainCommands.BleachLine | WasatchWritter/Code/Wasatch_Main_Commands.py:30-39 | with the set-up conversion and the ramp encoder corrected, the interface's new state and result are those of running the six calls |
| LegacyMainCommands.BleachLineCommands | WasatchWritter/Code/Wasatch_Main_Commands.py:32-39 | the four set-up sends, the ramp, then `scan n` with the duration; only the ramp can fail, and with the ramp encoder corrected it fails iff an end is out of the span |
| LegacyMainCommands.BleachLineRun | WasatchWritter/Code/Wasatch_Main_Commands.py:30-39 | with the ramp encoder corrected, on an open port with a tagged, non-negative duration, it finishes iff the line is in the span, writing and echoing all six lines and waiting the duration |
| LegacyMainCommands.BleachLineNeedsTaggedDuration | WasatchWritter/Code/Wasatch_Main_Commands.py:39 | a BleachLine that finishes was given a tagged, non-negative duration |
| LegacyMainCommands.PulseSendAsWritten | WasatchWritter/Code/Wasatch_Serial_Commands.py:289-296 | as written, the pulse duration encodes iff it is a bare time that rounds into 0..605535 µs; a tagged time raises in `WConvert_ToSeconds` |
| LegacyMainCommands.DelaySendAsWritten | WasatchWritter/Code/Wasatch_Serial_Commands.py:262-269 | as written, the pulse delay encodes iff it is a bare time that truncates into 3..65535 µs |
| LegacyMainCommands.SetupStepsAsWritten | WasatchWritter/Code/Wasatch_Main_Commands.py:32-35 | the four set-up sends as written, each with the default delay |
| LegacyMainCommands.SetupRaisesAsWritten | WasatchWritter/Code/Wasatch_Main_Commands.py:32 | as written, BleachLine, TestGrid, TestBars and BleachGrid raise at their first send, whatever follows: the link is left unchanged |
| LegacyMainCommands.ScanCountAsWritten | WasatchWritter/Code/Wasatch_Conversions.py:127-128 | as written, the scan count raises for every duration |
| LegacyMainCommands.BleachLineNeverFinishesAsWritten | WasatchWritter/Code/Wasatch_Main_Commands.py:30-39 | as written, no BleachLine finishes or writes anything: the link is left as it was |
| LegacyMainCommands.DrawLine | WasatchWritter/Code/Wasatch_Main_Commands.py:63 | one fiducial line is one BleachLine |
| LegacyMainCommands.BleachFiducial | WasatchWritter/Code/Wasatch_Main_Commands.py:54-74 | the calls are those of the two lines across, the two lines up, then the orientation line |
| LegacyMainCommands.DrawAcross | WasatchWritter/Code/Wasatch_Main_Commands.py:56-64 | the two lines across, stopping at the first that raises |
| LegacyMainCommands.DrawUp | WasatchWritter/Code/Wasatch_Main_Commands.py:66-69 | the two lines up, stopping at the first that raises |
| LegacyMainCommands.DrawCentre | WasatchWritter/Code/Wasatch_Main_Commands.py:71-74 | the centre line: vertical for `V`, horizontal for `H`, none otherwise |
| LegacyMainCommands.FiducialGeometry | WasatchWritter/Code/Wasatch_Main_Commands.py:54-74 | five lines for `V` or `H` and four otherwise, each markWidth long about the centre, the parallel ones markGapWidth apart |
| LegacyMainCommands.FiducialCalls | WasatchWritter/Code/Wasatch_Main_Commands.py:54-74 | six calls per line, line j's at 6j, and one wait of the duration per line |
| LegacyMainCommands.LinesCalls | WasatchWritter/Code/Wasatch_Main_Commands.py:30-39 | any list of lines drawn with BleachLine: six calls per line, in order, one wait per line |
| LegacyMainCommands.LinesDelay | WasatchWritter/Code/Wasatch_Main_Commands.py:39 | a list of lines waits the duration once per line |
| LegacyMainCommands.LineDelay | WasatchWritter/Code/Wasatch_Main_Commands.py:39 | one line waits the duration once |
| LegacyMainCommands.LineRunnable | WasatchWritter/Code/Wasatch_Main_Commands.py:30-39 | a line in the span with a tagged, non-negative duration encodes and can sleep |
| LegacyMainCommands.LinesRunnable | WasatchWritter/Code/Wasatch_Main_Commands.py:30-39 | with the ramp encoder corrected, lines all in the span make a runnable list |
| LegacyMainCommands.LinesFinishInSpan | WasatchWritter/Code/Wasatch_Main_Commands.py:37 | with the ramp encoder corrected, a run of lines that finishes had every line in the span |
| LegacyMainCommands.LinesRun | WasatchWritter/Code/Wasatch_Main_Commands.py:30-39 | with the ramp encoder corrected, a list of lines finishes iff every line is in the span; then every call goes out in order and the duration is waited per line |
| LegacyMainCommands.BleachFiducialRun | WasatchWritter/Code/Wasatch_Main_Commands.py:54-74 | with the ramp encoder corrected, the fiducial finishes on an open port iff all its lines are in the span |
| LegacyMainCommands.SendRaw | WasatchWritter/Code/Wasatch_Main_Commands.py:95-96 | one raw line: the unchecked `xy_ramp` text, then the scan with the duration |
| LegacyMainCommands.RawDrawRunnable | WasatchWritter/Code/Wasatch_Main_Commands.py:95-96 | a raw line always encodes and, with a tagged non-negative duration, can sleep |
| LegacyMainCommands.RawDrawDelay | WasatchWritter/Code/Wasatch_Main_Commands.py:96 | a raw line waits the duration once |
| LegacyMainCommands.RawLinesRunnable | WasatchWritter/Code/Wasatch_Main_Commands.py:94-99 | any list of raw lines is runnable |
| LegacyMainCommands.RawLinesDelay | WasatchWritter/Code/Wasatch_Main_Commands.py:94-99 | a list of raw lines waits the duration once per line |
| LegacyMainCommands.SetupRunnable | WasatchWritter/Code/Wasatch_Main_Commands.py:90-93 | the set-up calls are runnable and take no time |
| LegacyMainCommands.RunAfterSetup | WasatchWritter/Code/Wasatch_Main_Commands.py:89-99 | set-up then runnable calls finish on an open port, writing and echoing everything |
| LegacyMainCommands.GridColumns | WasatchWritter/Code/Wasatch_Main_Commands.py:94-96 | one column per index |
| LegacyMainCommands.GridRows | WasatchWritter/Code/Wasatch_Main_Commands.py:97-99 | one row per index |
| LegacyMainCommands.TestGrid | WasatchWritter/Code/Wasatch_Main_Commands.py:89-99 | the interface's new state and result are those of running the set-up, the columns and the rows |
| LegacyMainCommands.GridColumnLines | WasatchWritter/Code/Wasatch_Main_Commands.py:94-96 | the column loop, stopping at the first send that raises |
| LegacyMainCommands.GridRowLines | WasatchWritter/Code/Wasatch_Main_Commands.py:97-99 | the row loop, stopping at the first send that raises |
| LegacyMainCommands.TestGridColumn | WasatchWritter/Code/Wasatch_Main_Commands.py:95 | 4 + 2·(columns + rows) calls; column c's ramp is x, x, sy, sy + rowSpacing·(rows − 1) with x = sx + colSpacing·c, then the scan |
| LegacyMainCommands.TestGridRow | WasatchWritter/Code/Wasatch_Main_Commands.py:98 | row r's ramp is sx, sx + colSpacing·(columns − 1), y, y with y = sy + rowSpacing·r, then the scan |
| LegacyMainCommands.TestGridRun | WasatchWritter/Code/Wasatch_Main_Commands.py:89-99 | on an open port it always finishes, waiting the duration per column and per row; nothing bounds its coordinates |
| LegacyMainCommands.TestGridExample | WasatchWritter/Code/Wasatch_Main_Script.py:76 | the script's 50 × 100 grid makes 304 calls and sends a column to y = 24800, beyond MAX_Y |
| LegacyMainCommands.TwoSeconds | WasatchWritter/Code/Wasatch_Main_Commands.py:96 | two seconds take 200 sweeps |
| LegacyMainCommands.BarColumns | WasatchWritter/Code/Wasatch_Main_Commands.py:118-120 | one bar per index |
| LegacyMainCommands.TestBars | WasatchWritter/Code/Wasatch_Main_Commands.py:113-120 | the interface's new state and result are those of running the set-up and the bars |
| LegacyMainCommands.BarLines | WasatchWritter/Code/Wasatch_Main_Commands.py:118-120 | the bar loop, stopping at the first send that raises |
| LegacyMainCommands.TestBarsColumn | WasatchWritter/Code/Wasatch_Main_Commands.py:119 | 4 + 2·columns calls; bar c's ramp is x, x, sy, sy + colLength, then the scan |
| LegacyMainCommands.TestBarsRun | WasatchWritter/Code/Wasatch_Main_Commands.py:113-120 | on an open port it finishes, waiting the duration per bar |
| LegacyMainCommands.BleachGridColumns | WasatchWritter/Code/Wasatch_Main_Commands.py:141-142 | one column per index |
| LegacyMainCommands.BleachGridRows | WasatchWritter/Code/Wasatch_Main_Commands.py:143-144 | one row per index, rowSpacing apart |
| LegacyMainCommands.BleachGridRowsAsWritten | WasatchWritter/Code/Wasatch_Main_Commands.py:144 | as written, one row per index |
| LegacyMainCommands.BleachGrid | WasatchWritter/Code/Wasatch_Main_Commands.py:136-144 | the interface's new state and result are those of running the set-up, the columns and the rows |
| LegacyMainCommands.GridColumnBleaches | WasatchWritter/Code/Wasatch_Main_Commands.py:141-142 | the column loop, stopping at the first BleachLine that raises |
| LegacyMainCommands.GridRowBleaches | WasatchWritter/Code/Wasatch_Main_Commands.py:143-144 | the row loop, stopping at the first BleachLine that raises |
| LegacyMainCommands.BleachGridColumnGeometry | WasatchWritter/Code/Wasatch_Main_Commands.py:142 | vertical columns colLength long, centred on cy, colSpacing apart, the first at cx − (columns/2)·colSpacing |
| LegacyMainCommands.BleachGridRowGeometry | WasatchWritter/Code/Wasatch_Main_Commands.py:144 | horizontal rows rowLength long, centred on cx, rowSpacing apart, the first at cy − (rows/2)·rowSpacing |
| LegacyMainCommands.Spaced | WasatchWritter/Code/Wasatch_Main_Commands.py:142 | neighbouring positions o + (i − n/2)·s are s apart |
| LegacyMainCommands.BleachGridOffCentre | WasatchWritter/Code/Wasatch_Main_Commands.py:142 | the columns sit half a spacing left of symmetric about cx |
| LegacyMainCommands.RowSpacingIgnoredAsWritten | WasatchWritter/Code/Wasatch_Main_Commands.py:144 | as written, rows are 1 apart whatever rowSpacing is, and agree with the intended rows iff rowSpacing is 1 |
| LegacyMainCommands.RowSpacingExample | WasatchWritter/Code/Wasatch_Main_Commands.py:144 | two rows 0.5 apart land at −1 and 0 as written, at −0.5 and 0 corrected |
| LegacyMainCommands.BleachGridAsLines | WasatchWritter/Code/Wasatch_Main_Commands.py:136-144 | the grid's calls are the set-up, then BleachLine over the columns and rows as one list |
| LegacyMainCommands.SetupLinesCalls | WasatchWritter/Code/Wasatch_Main_Commands.py:136-144 | set-up and then lines: four calls, then six per line in order, one wait per line |
| LegacyMainCommands.SetupLinesRun | WasatchWritter/Code/Wasatch_Main_Commands.py:136-144 | with the ramp encoder corrected, set-up and then lines finish iff every line is in the span |
| LegacyMainCommands.SetupLinesFinishInSpan | WasatchWritter/Code/Wasatch_Main_Commands.py:141-144 | with the ramp encoder corrected, a finished set-up-and-lines run had every line in the span |
| LegacyMainCommands.BleachGridCalls | WasatchWritter/Code/Wasatch_Main_Commands.py:136-144 | calls 4 + 6j .. 9 + 6j draw line j, the columns first; one wait per line |
| LegacyMainCommands.BleachGridRun | WasatchWritter/Code/Wasatch_Main_Commands.py:136-144 | with the ramp encoder corrected, on an open port the grid finishes iff every column and row is in the span, sending everything in order |
| LegacyMainCommands.Volumetric3D | WasatchWritter/Code/Wasatch_Main_Commands.py:157-168 | with the ramp encoder corrected, the interface's new state and result are those of running the four volumetric calls |
| LegacyMainCommands.VolumetricCommands | WasatchWritter/Code/Wasatch_Main_Commands.py:165-168 | `a_scans aScans`, `b_scans bScans+4` (when it encodes), the corrected ramp over the corners, then `scan 0` |
| LegacyMainCommands.VolumetricRun | WasatchWritter/Code/Wasatch_Main_Commands.py:157-168 | with the ramp encoder corrected, on an open port it finishes iff the B-scan count encodes and the corners are in the span; no time passes |
| LegacyMainCommands.BScansEncodes | WasatchWritter/Code/Wasatch_Main_Commands.py:166 | `b_scans n+4` encodes exactly under the B-scan range check |
| LegacyMainCommands.VolumetricExample | WasatchWritter/Code/Wasatch_Main_Commands.py:157-168 | with the ramp encoder corrected, the defaults with a 1 mm half-width send a_scans 1024, b_scans 1028 and `xy_ramp 13461 17651 11862 16047 1` |
| LegacyMainCommands.VolumetricRunAsWritten | WasatchWritter/Code/Wasatch_Main_Commands.py:157-168 | as written, on an open port it finishes iff the B-scan count encodes, wherever the corners lie; the four lines go out in order and no time passes |
| LegacyMainCommands.VolumetricExampleAsWritten | WasatchWritter/Code/Wasatch_Main_Commands.py:157-168 | as written the defaults with a 1 mm half-width send `xy_ramp 17651 17651 16047 16047 1` |
| LegacyMainCommands.Volumetric3DPrecise | WasatchWritter/Code/Wasatch_Main_Commands.py:185-202 | appends the user instructions to the console iff verbose, then runs the volumetric calls (ramp encoder corrected) over pixelsWide × pixelsTall pixels from there |
| LegacyMainCommands.PreciseInstructionsAgree | WasatchWritter/Code/Wasatch_Main_Commands.py:193-202 | the counts the user is told read back as pixelsWide and pixelsTall, and those are what is sent (B-scans plus 4) |
| TickmarksScript.TickAnchors | Wasatch/Code/MCU/Wasatch_Tickmarks_Script.py:42-49 | all four tick ends lie on the intercept line; Ay = Dx = −d |
| TickmarksScript.TickLengths | Wasatch/Code/MCU/Wasatch_Tickmarks_Script.py:41-49 | B − A = l·(x, −y)/s and C − D = l·(−x, y)/s, so both ticks are exactly l long |
| TickmarksScript.ADIsTickGap | Wasatch/Code/MCU/Wasatch_Tickmarks_Script.py:53 | AD plus the two overshoots is the distance between A and D |
| TickmarksScript.Max | Wasatch/Code/MCU/Wasatch_Tickmarks_Script.py:59 | Python's max: a member of the list, and no element exceeds it |
| TickmarksScript.TooCloseMeaning | Wasatch/Code/MCU/Wasatch_Tickmarks_Script.py:59-61 | the check asks whether the tick line meets the outermost vertical line x = 0.1 below the top horizontal line y = 0.05 |
| TickmarksScript.Digits | Wasatch/Code/MCU/Wasatch_Tickmarks_Script.py:54 | exactly k decimal digits |
| TickmarksScript.DigitsValue | Wasatch/Code/MCU/Wasatch_Tickmarks_Script.py:54 | the k digits read back as the number |
| TickmarksScript.UnsignedReadsBack | Wasatch/Code/MCU/Wasatch_Tickmarks_Script.py:54 | `%f` of n millionths has its point seventh from the end and reads back as n/10⁶ |
| TickmarksScript.FixedSixReadsBack | Wasatch/Code/MCU/Wasatch_Tickmarks_Script.py:54 | the printed AD reads back within half a millionth of its value |
| TickmarksScript.Say | Wasatch/Code/MCU/Wasatch_Tickmarks_Script.py:65 | each printed line joins the console |
| TickmarksScript.Tickmarks | Wasatch/Code/MCU/Wasatch_Tickmarks_Script.py:21-87 | the outcome and the final state are those of the script run up to the MultiParallel printout |
| TickmarksScript.ScriptAborts | Wasatch/Code/MCU/Wasatch_Tickmarks_Script.py:53-61 | a zero divisor raises with nothing printed; a long AD or a line near the fiducial prints its one message; in all three no port is looked for |
| TickmarksScript.BurnOutcome | Wasatch/Code/MCU/Wasatch_Tickmarks_Script.py:64-84 | once connected, the script either raises or runs to the end |
| TickmarksScript.BurnTicksOutcome | Wasatch/Code/MCU/Wasatch_Tickmarks_Script.py:74-84 | after the fiducial, the script either raises or runs to the end |
| TickmarksScript.SegmentInField | Wasatch/Code/MCU/Wasatch_Tickmarks_Script.py:69-75 | every point within 2.5 mm of the centre is inside the MCU workspace |
| TickmarksScript.FiducialRunnable | Wasatch/Code/MCU/Wasatch_Tickmarks_Script.py:69 | the fiducial's forty commands all encode and can sleep |
| TickmarksScript.FiducialRun | Wasatch/Code/MCU/Wasatch_Tickmarks_Script.py:69 | on an open port the fiducial finishes, writes every line in order, echoes nothing and takes 5 s |
| TickmarksScript.FiducialDelay | Wasatch/Code/MCU/Wasatch_Tickmarks_Script.py:69 | five lines of one second each |
| TickmarksScript.FiducialNeedsPort | Wasatch/Code/MCU/Wasatch_Tickmarks_Script.py:69 | with no open port the fiducial's first send raises |
| TickmarksScript.TickRun | Wasatch/Code/MCU/Wasatch_Tickmarks_Script.py:74-75 | with the ramp encoder corrected, a tick finishes iff both ends are in the workspace, then writes its six lines and takes l/5 = 0.2 s |
| TickmarksScript.TickRunAsWritten | Wasatch/Code/MCU/Wasatch_Tickmarks_Script.py:74-75 | as written a tick on an open port always finishes, writing its six lines and taking 0.2 s |
| TickmarksScript.ScriptDraws | Wasatch/Code/MCU/Wasatch_Tickmarks_Script.py:64-84 | with the ramp encoder corrected, past the checks it runs to the end iff the port search leaves a port open (the galvo answered, or a port opened and did not) and both ticks are in the workspace: fiducial, A→B, C→D, close, the closing lines and the volume command |
| TickmarksScript.TicksRun | Wasatch/Code/MCU/Wasatch_Tickmarks_Script.py:74-78 | with the ramp encoder corrected, from an open port the ticks finish iff both are in bounds, sending both in order and closing the port |
| TickmarksScript.FinishRun | Wasatch/Code/MCU/Wasatch_Tickmarks_Script.py:78-84 | closing an existing port works, and the closing lines and the volume command print |
| TickmarksScript.VolumePrints | Wasatch/Code/MCU/Wasatch_Tickmarks_Script.py:84 | with the ramp encoder corrected, the closing volume scan from (−1, −1) to (1, 1) encodes |
| TickmarksScript.VolumePrintsAsWritten | Wasatch/Code/MCU/Wasatch_Tickmarks_Script.py:84 | as written the closing printout is the intro, `xy_ramp 17257 17257 17207 17207 10` and the outro |
| TickmarksScript.ScriptExample | Wasatch/Code/MCU/Wasatch_Tickmarks_Script.py:27-28 | x = 0.4, y = 0.3: the tick ends, AD = 223/240 mm, both checks pass, and it runs to the end iff the port search leaves a port open |
| TickmarksScript.ScriptDrawsWithoutGalvo | Wasatch/Code/MCU/Wasatch_Tickmarks_Script.py:64-84 | when no port answers and the last port probed opens, the search fails and the flag stays false, yet the script runs to the end on that port |
| TickmarksScript.ScriptWithoutGalvoExample | Wasatch/Code/MCU/Wasatch_Tickmarks_Script.py:64-84 | with one port that always replies `B`, no galvo is found and the script still runs to the end |
| TickmarksScript.ExampleTicks | Wasatch/Code/MCU/Wasatch_Tickmarks_Script.py:42-49 | the ticks for x = 0.4, y = 0.3 run from (11/15, −0.25) to (23/15, −0.85) and from (−1.05, 1.0875) to (−0.25, 0.4875) |
| TickmarksScript.ScriptTooLongExample | Wasatch/Code/MCU/Wasatch_Tickmarks_Script.py:55-57 | x = 0.6, y = 0.8 gives AD = 343/240, printed as 1.429167, and the script stops |
| TickmarksScript.FixedSixExample | Wasatch/Code/MCU/Wasatch_Tickmarks_Script.py:54 | 343/240 prints as `1.429167` |
| TickmarksScript.MillionthsExample | Wasatch/Code/MCU/Wasatch_Tickmarks_Script.py:54 | 343/240 rounds to 1429167 millionths |
| TickmarksScript.UnsignedExample | Wasatch/Code/MCU/Wasatch_Tickmarks_Script.py:54 | 1429167 millionths print as `1.429167` |

## Left out

- `WCommand_ScanPolar`, `WCommand_ScanSpiral` and both `WCommand_MotorGoAbsolute` definitions (Wasatch_Serial_Commands.py:607-633, 764-789) call `WConvert_PointToCenteredInput`, which is not part of this model. `ScanSpiral` also has four format fields for three values, and `MotorGoAbsolute` is defined twice.
- `GCommand_PrintCMD_MultiParallel` (Wasatch/Code/MCU/Wasatch_Main_Commands.py:275-314) is built on numpy and cv2 rotation matrices and floating-point `arctan`. The tick-mark script is modelled up to the call to it.
- The top-level scripts `Wasatch_Main_Script.py` (both revisions) and `WasatchWritter/Code/MCU/Wasatch_Tickmarks_Script.py` are run-once code with hard-coded parameters. They import modules that are not part of this model. Their one grid call appears as `LegacyMainCommands.TestGridExample`.
- `Wasatch_Serial_Interface_Abstract.py` holds only `NotImplementedError` stubs. The two interface classes stand on their own.
- The pint unit registry is reduced to the units the core uses: bare, millimetre and micrometre lengths; bare, second and microsecond times. Other dimensions and unit arithmetic are not modelled.
- Serial I/O, `time.sleep` and `print` are values in `Transport.Link`: the lines written, the lines printed and the seconds slept. Real timing, timeouts and the `read()` of more than the first reply are not modelled. The reply to each probe is given by the `Environment`.
- Floating point is exact real arithmetic. IEEE rounding between operations is not modelled, and the rounding modes of `round`, `int` and `math.ceil` are stated explicitly.
- McuCalibration.McuOneSecond, McuMainCommands.BleachLineOneSecond and LegacyMainCommands.TwoSeconds: these state the exact-real counts 100, 100 and 200 sweeps. In IEEE doubles, 100 µs scaled to seconds by 10⁻⁶ and times 100 is 0.009999999999999998, so `math.ceil` may give 101 and 201 instead.
- `np.sqrt` in the tick-mark script is a parameter `s` with `s ≥ 0` and `s·s = x² + y²`. The script's hard-coded intercepts x = 0.4 and y = 0.3 are parameters of `TickmarksScript.Tickmarks`, and `ScriptExample` fixes them to the script's values.
- `"%f"` is modelled on exact reals, rounding half to even at the sixth decimal (`TickmarksScript.Millionths`). Python formats a double correctly rounded, ties to even, so a tie that a double can hold exactly, such as 0.0078125, prints as 0.007812 in both. IEEE rounding of the value before formatting is not modelled.
- `WConvert_ToMillimeters` (Wasatch/Code/MCU/Wasatch_Main_Commands.py:241-244) is not part of this model. It is taken to give the length in millimetres.
- `GCommand_3DVolumetric_Precise`'s `verbose` defaults to the string `'false'`, which is truthy. The model takes `verbose` as a boolean argument.
- Python's `isinstance` checks on argument types vanish: arguments have the types the callers use. An encoder that `isinstance` would refuse for a wrong type has no such case here.
- The `ValueError` messages the encoders raise are fixed strings (`SerialCommands.ValuePrefix` and the constants beside it). The source formats the rejected value into most of them with `%s`, for example the focus value at WasatchWritter/Code/Wasatch_Serial_Commands.py:96 and the motor at :147. Python's `%s` of a float or a pint quantity is not modelled, so the refused value is not part of the message.
- Calibration.SweepSeconds: its contract states only that a sweep is positive. The MCU value 0.01 s is `McuCalibration.McuSweep`.
- McuMainCommands.HorizontalLines: its contract gives only the number of lines. Their positions are `McuMainCommands.FiducialGeometry`.
- McuMainCommands.VerticalLines: as for HorizontalLines.
- LegacyMainCommands.GridColumns, LegacyMainCommands.GridRows, LegacyMainCommands.BarColumns, LegacyMainCommands.BleachGridColumns, LegacyMainCommands.BleachGridRows and LegacyMainCommands.BleachGridRowsAsWritten: their contracts give only the number of lines. The coordinates are in the `TestGridColumn`, `TestGridRow`, `TestBarsColumn` and `*Geometry` lemmas.
- McuMainCommands.BleachLine: states the run with the corrected ramp encoder; as written the ramp subtracts the start offset and checks no bound, so the line is always sent in full (McuMainCommands.BleachLineRunAsWritten).
- McuMainCommands.BleachLineCommands: its iff "the ramp fails exactly when an end is out of bounds" holds with the ramp encoder corrected; as written the ramp subtracts the start offset and checks no bound (McuMainCommands.BleachLineCommandsAsWritten).
- McuMainCommands.BleachLineRun: "finishes iff in bounds" holds with the ramp encoder corrected; as written it always finishes (McuMainCommands.BleachLineRunAsWritten, McuMainCommands.OutOfBoundsLineAsWritten).
- McuMainCommands.BleachLineNTimes: states the run with the corrected ramp encoder; as written it finishes whenever numScans ≠ 0 (McuMainCommands.NTimesRunAsWritten).
- McuMainCommands.NTimesCommands: the ramp fails only out of bounds with the ramp encoder corrected; as written it never fails (McuMainCommands.NTimesRunAsWritten).
- McuMainCommands.VolumetricExample: prints the corrected ramp `xy_ramp 12743 17257 12793 17207 10`; as written it prints `xy_ramp 17257 17257 17207 17207 10` (McuMainCommands.VolumetricExampleAsWritten).
- McuMainCommands.PrintVolumetricScan: "finishes iff in bounds" holds with the ramp encoder corrected; as written every print finishes (McuMainCommands.VolumetricPrintsAsWritten).
- McuMainCommands.PrintVolumetricScanAdjusted: corrects both the line-244 scale and the ramp encoder; fully as written see McuMainCommands.AdjustedFullyAsWrittenExample.
- McuMainCommands.AdjustedKeepsRows: holds with the ramp encoder corrected; as written the ramp places the Y start at 15000 − 2207·y0 and the stop at 15000 + 2207·y1, mirrored about the centre rather than equal (McuMainCommands.VolumetricPrintsAsWritten).
- McuMainCommands.AdjustedStopYCounterexample: isolates the line-244 scale by using the corrected ramp encoder; the fully as-written printout is `xy_ramp 14987 17329 12722 17267 1` (McuMainCommands.AdjustedFullyAsWrittenExample).
- LegacyMainCommands.BleachLine: states the run with the set-up conversion and the ramp encoder corrected; as written its first send raises (LegacyMainCommands.BleachLineNeverFinishesAsWritten), and its ramp would be LegacyMainCommands.RampAsWritten.
- LegacyMainCommands.BleachLineCommands: the ramp fails iff out of the span with the ramp encoder corrected; as written it never fails (LegacyMainCommands.RampAsWritten).
- LegacyMainCommands.BleachLineRun: "finishes iff in the span" holds with the set-up conversion and the ramp encoder corrected; as written it never finishes (LegacyMainCommands.BleachLineNeverFinishesAsWritten).
- LegacyMainCommands.LinesFinishInSpan: holds with the ramp encoder corrected; as written every line raises at its first send (LegacyMainCommands.BleachLineNeverFinishesAsWritten).
- LegacyMainCommands.LinesRun: as for LinesFinishInSpan: the iff holds with the set-up conversion and the ramp encoder corrected.
- LegacyMainCommands.BleachFiducialRun: as for LinesFinishInSpan.
- LegacyMainCommands.SetupLinesRun: holds with the ramp encoder corrected; as written the set-up raises first (LegacyMainCommands.SetupRaisesAsWritten).
- LegacyMainCommands.SetupLinesFinishInSpan: as for SetupLinesRun.
- LegacyMainCommands.BleachGridRun: as for SetupLinesRun.
- LegacyMainCommands.Volumetric3D: states the run with the corrected ramp encoder; as written see LegacyMainCommands.VolumetricRunAsWritten.
- LegacyMainCommands.VolumetricRun: "finishes iff the B-scan count encodes and the corners are in the span" holds with the ramp encoder corrected; as written it finishes iff the B-scan count encodes (LegacyMainCommands.VolumetricRunAsWritten).
- LegacyMainCommands.VolumetricExample: sends the corrected ramp `xy_ramp 13461 17651 11862 16047 1`; as written it sends `xy_ramp 17651 17651 16047 16047 1` (LegacyMainCommands.VolumetricExampleAsWritten).
- TickmarksScript.TickRun: "finishes iff in the workspace" holds with the ramp encoder corrected; as written a tick always finishes (TickmarksScript.TickRunAsWritten).
- TickmarksScript.ScriptDraws: holds with the ramp encoder corrected: as written the ticks never stop the run (TickmarksScript.TickRunAsWritten), and the volume command prints `xy_ramp 17257 17257 17207 17207 10` (TickmarksScript.VolumePrintsAsWritten). The whole script is not restated over the as-written encoder.
- TickmarksScript.TicksRun: as for ScriptDraws.

## Findings

| source | as written | input that shows it | evidently intended | confidence | as-written member | corrected member |
|---|---|---|---|---|---|---|
| WasatchWritter/Code/Wasatch_Serial_Commands.py:514-515 | a ramp's start is CENTER − conv(start) but its stop CENTER + conv(stop) | the MCU X ramp from −1 mm to 1 mm gives `xramp 17257 17257 1`: the line collapses to a point (CommandProperties.RampSignCounterexample) | start = CENTER + conv(start): `xramp 12743 17257 1`, a ramp centred on the centre (CommandProperties.XRampCentred) | not executed | SerialCommands.ScanXRampAsWritten | SerialCommands.ScanXRamp |
| WasatchWritter/Code/Wasatch_Serial_Commands.py:547-548 | the same asymmetric sign on the Y ramp | the Y ramp from −l to l collapses to one point for every l (CommandProperties.RampSignCollapses) | start = CENTER_Y + conv(start) | not executed | SerialCommands.ScanYRampAsWritten | SerialCommands.ScanYRamp |
| WasatchWritter/Code/Wasatch_Serial_Commands.py:514 | the ramps pass `flags` on as one tuple, so `"wasatchUnits" in flags` is never true | ScanXRamp(−1000, 1000, 1, "wasatchUnits") reads the device units as mm and is refused (CommandProperties.RampFlagsCounterexample) | the flags passed on one by one: `xramp 14000 16000 1` | not executed | SerialCommands.ConvertedAsWritten | SerialCommands.ScanXRamp |
| WasatchWritter/Code/Wasatch_Serial_Commands.py:585 | the condition is a tuple of comparisons, always truthy | a 10 mm start is sent although X lands far outside [5000, 25000] (CommandProperties.XYRampUncheckedCounterexample); an MCU BleachLine from it is sent in full (McuMainCommands.OutOfBoundsLineAsWritten) | the conjunction of the four bounds | not executed | SerialCommands.ScanXYRampAsWritten | SerialCommands.ScanXYRamp |
| WasatchWritter/Code/Wasatch_Serial_Commands.py:292 | upper bound 605535 for the pulse duration | a 70000 µs pulse is accepted (CommandProperties.PulseBoundCounterexample) | the documented range 0..65535 | not executed | SerialCommands.ScanPulseDurationAsWritten | SerialCommands.ScanPulseDuration |
| WasatchWritter/Code/Wasatch_Serial_Commands.py:342 | upper bound 605535 for the return clock divider | `A_div 70000` is accepted (CommandProperties.CountBoundCounterexample) | the documented range 0..65535 | not executed | SerialCommands.CountAsWritten | SerialCommands.ScanReturnClockDivider |
| WasatchWritter/Code/Wasatch_Serial_Commands.py:366 | upper bound 605535 for the phase shift | `Phase 70000` is accepted (CommandProperties.CountBoundCounterexample) | the documented range 0..65535 | not executed | SerialCommands.CountAsWritten | SerialCommands.ScanPhaseShift |
| WasatchWritter/Code/Wasatch_Serial_Commands.py:418 | upper bound 605535 for the A trigger gap | `a_hold 70000` is accepted (CommandProperties.TriggerCountBoundCounterexample) | 0..65535 | not executed | SerialCommands.CountAsWritten | SerialCommands.ScanATriggerGap |
| WasatchWritter/Code/Wasatch_Serial_Commands.py:442 | upper bound 605535 for the B trigger gap | `b_hold 70000` is accepted (CommandProperties.TriggerCountBoundCounterexample) | 0..65535 | not executed | SerialCommands.CountAsWritten | SerialCommands.ScanBTriggerGap |
| WasatchWritter/Code/Wasatch_Serial_Commands.py:457 | upper bound 605535 for the trigger delay | `trdelay 70000` is accepted (CommandProperties.TriggerDelayBoundCounterexample) | 0..65535 | not executed | SerialCommands.CountAsWritten | SerialCommands.ScanTriggerDelay |
| WasatchWritter/Code/Wasatch_Serial_Commands.py:812 | `ValueError(...)` is built but not raised, and control falls through to the all-motors line | MotorHome("z") sends `mgh a`, homing every motor (CommandProperties.MotorFallbackCounterexample); MotorStop and MotorIsHome alike (859, 894) | raise for an unknown identifier | not executed | SerialCommands.MotorTargetAsWritten | SerialCommands.MotorTarget |
| WasatchWritter/Code/Wasatch_Serial_Commands.py:718 | `ValueError(...)` is built but not raised, so the function returns None | MotorSetTopSpeed("z", 5) returns None (CommandProperties.MotorNoneCounterexample); top acceleration alike (746) | raise for an unknown identifier | not executed | SerialCommands.MotorSettingAsWritten | SerialCommands.MotorSetting |
| WasatchWritter/Code/Wasatch_Serial_Commands.py:838 | `ValueError(...)` is built but not raised, so the function returns None | MotorDirection("z", True) returns None (CommandProperties.MotorNoneCounterexample) | raise for an unknown identifier | not executed | SerialCommands.MotorDirectionAsWritten | SerialCommands.MotorDirection |
| Wasatch/Code/MCU/Wasatch_Main_Commands.py:244 | stopY is scaled by 1.02269, startY by 1.0269 | with the ramp encoder corrected, the row from (0, 1 mm) to (1 mm, 1 mm) prints Y ends 17277 and 17267 (McuMainCommands.AdjustedStopYCounterexample); fully as written it prints `xy_ramp 14987 17329 12722 17267 1` (McuMainCommands.AdjustedFullyAsWrittenExample) | one Y scale, 1.0269, for both ends, which with the ramp encoder corrected keeps a row a row (McuMainCommands.AdjustedKeepsRows) | not executed | McuMainCommands.AdjustedStopYCounterexample | McuMainCommands.PrintVolumetricScanAdjusted |
| WasatchWritter/Code/Wasatch_Conversions.py:102-106 | WConvert_ToSeconds calls float() first, which raises on a tagged time. The set-up's first send passes it the tagged 75 µs of WConvert_PulseDuration() (Wasatch_Conversions.py:154-155, Wasatch_Serial_Commands.py:291), and the scan count (127-128) divides by float() of the tagged PULSEPERIOD, while the legacy sleep (WasatchWritter/Code/Wasatch_Serial_Interface_DirectSerial.py:62) needs a tagged time | any BleachLine: the pulse-duration send at WasatchWritter/Code/Wasatch_Main_Commands.py:32 raises before anything is written (LegacyMainCommands.BleachLineNeverFinishesAsWritten); TestGrid, TestBars and BleachGrid alike (LegacyMainCommands.SetupRaisesAsWritten) | the conversion that accepts both, as its own description says: BleachLine finishes on an in-span line (LegacyMainCommands.BleachLineRun) | not executed | LegacyMainCommands.PulseSendAsWritten | LegacyMainCommands.BleachLine |
| WasatchWritter/Code/Wasatch_Main_Commands.py:144 | each row's y is cy + (r − rows/2), without rowSpacing | two rows 0.5 apart land at −1 and 0 (LegacyMainCommands.RowSpacingExample, LegacyMainCommands.RowSpacingIgnoredAsWritten) | cy + (r − rows/2)·rowSpacing (LegacyMainCommands.BleachGridRowGeometry) | not executed | LegacyMainCommands.BleachGridRowsAsWritten | LegacyMainCommands.BleachGridRows |
