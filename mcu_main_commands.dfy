/**
 * Wasatch/Code/MCU/Wasatch_Main_Commands.py: the drawing procedures of the
 * MCU revision, on the flagged serial interface and the MCU calibration.
 *
 * Each procedure is a method on a FlaggedSerial.DirectSerial proved to make
 * exactly the calls of a list of Steps (the commands and delays it passes to
 * sendCommand, in order), so that its effect is Transport.Exec of that list;
 * the straight-line ones are a SendSeries.Series of their encoder results,
 * and the lemmas state what the lists contain and what running them does.
 * The print procedures send nothing and are functions giving the printed
 * lines.
 *
 * Departures from the text: line 243 reads `...(startY)tY + ...`, a syntax
 * error; the stray `tY` is dropped.  Lines 241-244 add
 * `5.493 * unitRegistry.microns()`, a call of a unit (a TypeError); it is
 * read as 5.493 µm, and 4.939 µm alike.  WConvert_ToMillimeters (241-244)
 * is not part of this model; it is taken to give the length in millimetres.
 *
 * The procedures send or print their ramp through the corrected
 * SerialCommands.ScanXYRamp, which adds the start offset to the centre
 * and checks the bounds.  As written, the encoder subtracts the start
 * offset and checks nothing (SerialCommands.ScanXYRampAsWritten); the
 * members named AsWritten below give BleachLine, BleachLineNTimes and the
 * volumetric print over that encoder.
 */
module McuMainCommands {
  import opened Wrappers
  import opened Units
  import opened Rounding
  import opened WireFormat
  import opened Calibration
  import opened McuCalibration
  import opened SerialCommands
  import opened Transport
  import opened Segments
  import opened SendSeries
  import opened FlaggedSerial

  /** The literal 0 passed as the delay of a set-up command. */
  const NoDelay := Time(0.0, BareTime)

  /** WConvert_PulseDuration() and WConvert_PulseDelay(): pint microseconds at the default duty cycle. */
  function PulseOn(): Time { Time(PulseDuration(Mcu, Mcu.dutyCycle) as real, Microsecond) }

  function PulseOff(): Time { Time(PulseDelay(Mcu, Mcu.dutyCycle) as real, Microsecond) }

  /** duration = WConvert_ToSeconds(duration): a time in seconds. */
  function InSeconds(duration: Time): Time { Time(ToSeconds(duration), Second) }

  /** WConvert_NumScansFromSecs with its default period and count. */
  function ScanCount(duration: Time): int
  {
    McuOk();
    NumScansFromSecs(Mcu, duration, Time(Mcu.pulsePeriodUs as real, Microsecond), Mcu.pulsesPerSweep)
  }

  /** The four pulse set-up commands encode as pulse 75, delay 25, a_scans 100 and b_scans 0. */
  lemma SetupCommands()
    ensures ScanPulseDuration(Some(PulseOn())).Ok?
    ensures ScanPulseDuration(Some(PulseOn())).value == Command("pulse", [75])
    ensures ScanPulseDelay(Some(PulseOff())).Ok?
    ensures ScanPulseDelay(Some(PulseOff())).value == Command("delay", [25])
    ensures ScanAScans(Some(PulsesPerSweep(Mcu) as real)) == Command("a_scans", [100])
    ensures ScanBScans(Some(0.0)).Ok?
    ensures ScanBScans(Some(0.0)).value == Command("b_scans", [0])
  {
    McuDefaultPulse();
    assert Microseconds(PulseOn()) == 75.0;
    assert Microseconds(PulseOff()) == 25.0;
    RoundInteger(75);
    assert Trunc(25.0) == 25 && Trunc(100.0) == 100 && Trunc(0.0) == 0;
  }

  // ------------------------------------------------------------ BleachLine

  /** BleachLine's set-up sends (55-61): the pulse shape, one sweep of 100 A-scans, no B-scans, the ramp. */
  function BleachLineSetup(startX: Length, startY: Length, stopX: Length, stopY: Length, flags: Flags): seq<Result<Line>>
  {
    [ScanPulseDuration(Some(PulseOn())),
     ScanPulseDelay(Some(PulseOff())),
     Ok(ScanAScans(Some(PulsesPerSweep(Mcu) as real))),
     ScanBScans(Some(0.0)),
     ScanXYRamp(Mcu, startX, startY, stopX, stopY, 1, flags)]
  }

  /**
   * GCommand_BleachLine (52-62): the set-up sends with delay 0, then as many
   * scans as cover the duration, waiting for the duration.  Every flag goes
   * to every send and to the ramp.
   */
  function BleachLineSteps(startX: Length, startY: Length, stopX: Length, stopY: Length, duration: Time, flags: Flags): seq<Step>
  {
    Series(BleachLineSetup(startX, startY, stopX, stopY, flags),
           Ok(ScanNTimes(ScanCount(InSeconds(duration)))), NoDelay, InSeconds(duration))
  }

  method BleachLine(mc: DirectSerial, startX: Length, startY: Length, stopX: Length, stopY: Length, duration: Time, flags: Flags)
    returns (ok: bool)
    modifies mc
    ensures (mc.Snapshot(), ok) == Exec(Flagged, old(mc.Snapshot()), BleachLineSteps(startX, startY, stopX, stopY, duration, flags), flags)
  {
    ok := mc.Run(BleachLineSteps(startX, startY, stopX, stopY, duration, flags), flags);
  }

  /**
   * BleachLine's commands, in order: pulse 75, delay 25, a_scans 100,
   * b_scans 0, the ramp, scan n.  Only the ramp can fail to encode, and it
   * fails exactly when an end lies outside the workspace.
   */
  lemma BleachLineCommands(startX: Length, startY: Length, stopX: Length, stopY: Length, duration: Time, flags: Flags)
    ensures var c := BleachLineSetup(startX, startY, stopX, stopY, flags);
      |c| == 5 && AllOk(c[..4]) &&
      c[0].value == Command("pulse", [75]) &&
      c[1].value == Command("delay", [25]) &&
      c[2].value == Command("a_scans", [100]) &&
      c[3].value == Command("b_scans", [0]) &&
      (c[4].Ok? <==> XRampInBounds(Mcu, startX, stopX, flags) && YRampInBounds(Mcu, startY, stopY, flags)) &&
      (c[4].Ok? ==> c[4].value == Command("xy_ramp",
        [Trunc(XPosition(Mcu, startX, flags).value), Trunc(XPosition(Mcu, stopX, flags).value),
         Trunc(YPosition(Mcu, startY, flags).value), Trunc(YPosition(Mcu, stopY, flags).value), 1]))
  {
    SetupCommands();
  }

  /**
   * The one wait is the duration, after the last send, and its scan count
   * is the least number of 0.01 s sweeps that covers the duration.
   */
  lemma BleachLineTiming(startX: Length, startY: Length, stopX: Length, stopY: Length, duration: Time, flags: Flags)
    ensures TotalDelay(Flagged, BleachLineSteps(startX, startY, stopX, stopY, duration, flags)) == ToSeconds(duration)
    ensures ScanCount(InSeconds(duration)) as real * 0.01 >= ToSeconds(duration)
    ensures (ScanCount(InSeconds(duration)) - 1) as real * 0.01 < ToSeconds(duration)
  {
    SeriesDelay(Flagged, BleachLineSetup(startX, startY, stopX, stopY, flags),
                Ok(ScanNTimes(ScanCount(InSeconds(duration)))), NoDelay, InSeconds(duration));
    McuNumScansFromSecs(InSeconds(duration), Time(Mcu.pulsePeriodUs as real, Microsecond), Mcu.pulsesPerSweep);
  }

  /**
   * A BleachLine on an open port (or with "disableOutput") and a duration
   * that is not negative finishes exactly when the line is in the workspace.
   * Then all six lines reach the port and the interface waits the duration;
   * otherwise only the four pulse set-up lines are sent before the ramp raises.
   */
  lemma BleachLineRun(k: Link, startX: Length, startY: Length, stopX: Length, stopY: Length, duration: Time, flags: Flags)
    requires Usable(k.port) || DisableOutput(flags)
    requires ToSeconds(duration) >= 0.0
    ensures var steps := BleachLineSteps(startX, startY, stopX, stopY, duration, flags);
      var r := Exec(Flagged, k, steps, flags);
      (r.1 <==> XRampInBounds(Mcu, startX, stopX, flags) && YRampInBounds(Mcu, startY, stopY, flags)) &&
      (r.1 && !DisableOutput(flags) ==> r.0.wire == k.wire + Delivered(k.port.id, steps)) &&
      (!r.1 && !DisableOutput(flags) ==> r.0.wire == k.wire + Delivered(k.port.id, steps[..4])) &&
      (r.1 ==> r.0.elapsed == k.elapsed + ToSeconds(duration))
  {
    var setup := BleachLineSetup(startX, startY, stopX, stopY, flags);
    var final := Ok(ScanNTimes(ScanCount(InSeconds(duration))));
    BleachLineCommands(startX, startY, stopX, stopY, duration, flags);
    assert AllOk(setup) <==> setup[4].Ok? by {
      if setup[4].Ok? {
        forall i | 0 <= i < 5 ensures setup[i].Ok? {
          if i < 4 { assert setup[..4][i] == setup[i]; }
        }
      }
    }
    SeriesRun(Flagged, k, setup, final, NoDelay, InSeconds(duration), flags);
    if setup[4].Err? {
      SeriesStops(Flagged, k, setup, final, NoDelay, InSeconds(duration), flags, 4);
    }
  }

  /** A 1 mm line along X from the centre: its ramp is xy_ramp 15000 17257 15000 15000 1. */
  lemma BleachLineExample()
    ensures var c := BleachLineSetup(Bare(0.0), Bare(0.0), Bare(1.0), Bare(0.0), []);
      c[4] == Ok(Command("xy_ramp", [15000, 17257, 15000, 15000, 1]))
  {
    RampExample();
  }

  lemma RampExample()
    ensures ScanXYRamp(Mcu, Bare(0.0), Bare(0.0), Bare(1.0), Bare(0.0), 1, []) == Ok(Command("xy_ramp", [15000, 17257, 15000, 15000, 1]))
  {
    RampExampleEnds();
    var r := ScanXYRamp(Mcu, Bare(0.0), Bare(0.0), Bare(1.0), Bare(0.0), 1, []);
    assert r.Ok?;
  }

  /** The ends of that ramp: both inside the workspace, at 15000 and 17257 across and 15000 up. */
  lemma RampExampleEnds()
    ensures XRampInBounds(Mcu, Bare(0.0), Bare(1.0), []) && YRampInBounds(Mcu, Bare(0.0), Bare(0.0), [])
    ensures Trunc(XPosition(Mcu, Bare(0.0), []).value) == 15000 && Trunc(XPosition(Mcu, Bare(1.0), []).value) == 17257
    ensures Trunc(YPosition(Mcu, Bare(0.0), []).value) == 15000
  {
    BarePosition(0.0);
    BarePosition(1.0);
    assert Trunc(15000.0) == 15000 && Trunc(17257.0) == 17257;
  }

  /** A bare coordinate v lies at 15000 + 2257·v across and 15000 + 2207·v up. */
  lemma BarePosition(v: real)
    ensures XPosition(Mcu, Bare(v), []) == Some(15000.0 + v * 2257.0)
    ensures YPosition(Mcu, Bare(v), []) == Some(15000.0 + v * 2207.0)
  {
    McuBareConversion(v, []);
    McuCentres();
  }

  /** For one second it sends scan 100: a hundred 0.01 s sweeps. */
  lemma BleachLineOneSecond()
    ensures ScanCount(InSeconds(Time(1.0, BareTime))) == 100
  {
    var one := InSeconds(Time(1.0, BareTime));
    var n := ScanCount(one);
    assert ToSeconds(one) == 1.0;
    McuNumScansFromSecs(one, Time(Mcu.pulsePeriodUs as real, Microsecond), Mcu.pulsesPerSweep);
    assert n as real * 0.01 >= 1.0 && (n - 1) as real * 0.01 < 1.0;
  }

  // ------------------------------------------------- BleachLine as written

  /**
   * BleachLine's set-up as written: the same four pulse commands, then the
   * ramp through the as-written encoder (Wasatch_Serial_Commands.py
   * 580-587), which subtracts the start offset and checks no bound.
   */
  function BleachLineSetupAsWritten(startX: Length, startY: Length, stopX: Length, stopY: Length, flags: Flags): seq<Result<Line>>
  {
    BleachLineSetup(startX, startY, stopX, stopY, flags)[..4] + [ScanXYRampAsWritten(Mcu, startX, startY, stopX, stopY, 1, flags)]
  }

  function BleachLineStepsAsWritten(startX: Length, startY: Length, stopX: Length, stopY: Length, duration: Time, flags: Flags): seq<Step>
  {
    Series(BleachLineSetupAsWritten(startX, startY, stopX, stopY, flags),
           Ok(ScanNTimes(ScanCount(InSeconds(duration)))), NoDelay, InSeconds(duration))
  }

  /**
   * As written, the ramp of a BleachLine always encodes, wherever its ends
   * lie: xy_ramp 15000 - 2257·x0, 15000 + 2257·x1, 15000 - 2207·y0,
   * 15000 + 2207·y1 (millimetres, truncated), one repeat.
   */
  lemma BleachLineCommandsAsWritten(startX: Length, startY: Length, stopX: Length, stopY: Length, flags: Flags)
    ensures var c := BleachLineSetupAsWritten(startX, startY, stopX, stopY, flags);
      |c| == 5 && AllOk(c) &&
      c[0].value == Command("pulse", [75]) &&
      c[1].value == Command("delay", [25]) &&
      c[2].value == Command("a_scans", [100]) &&
      c[3].value == Command("b_scans", [0]) &&
      c[4].value == Command("xy_ramp",
        [Trunc(15000.0 - Millimetres(startX) * 2257.0), Trunc(15000.0 + Millimetres(stopX) * 2257.0),
         Trunc(15000.0 - Millimetres(startY) * 2207.0), Trunc(15000.0 + Millimetres(stopY) * 2207.0), 1])
  {
    var c := BleachLineSetupAsWritten(startX, startY, stopX, stopY, flags);
    SetupCommands();
    McuCentres();
    XYRampAsWrittenAccepts(Mcu, startX, startY, stopX, stopY, 1, flags);
    assert c[4] == ScanXYRampAsWritten(Mcu, startX, startY, stopX, stopY, 1, flags);
    forall i | 0 <= i < 5 ensures c[i].Ok? {
      if i < 4 { assert c[i] == BleachLineSetup(startX, startY, stopX, stopY, flags)[i]; }
    }
  }

  /**
   * As written, a BleachLine on an open port (or with "disableOutput") and
   * a duration that is not negative always finishes, wherever its ends lie:
   * all six lines reach the port and the interface waits the duration.
   */
  lemma BleachLineRunAsWritten(k: Link, startX: Length, startY: Length, stopX: Length, stopY: Length, duration: Time, flags: Flags)
    requires Usable(k.port) || DisableOutput(flags)
    requires ToSeconds(duration) >= 0.0
    ensures var steps := BleachLineStepsAsWritten(startX, startY, stopX, stopY, duration, flags);
      var r := Exec(Flagged, k, steps, flags);
      r.1 &&
      (!DisableOutput(flags) ==> r.0.wire == k.wire + Delivered(k.port.id, steps)) &&
      r.0.elapsed == k.elapsed + ToSeconds(duration)
  {
    BleachLineCommandsAsWritten(startX, startY, stopX, stopY, flags);
    SeriesRun(Flagged, k, BleachLineSetupAsWritten(startX, startY, stopX, stopY, flags),
              Ok(ScanNTimes(ScanCount(InSeconds(duration)))), NoDelay, InSeconds(duration), flags);
  }

  /**
   * A line that starts 10 mm off the centre, outside the workspace: the
   * corrected encoder refuses its ramp and the procedure stops after the
   * four pulse lines, while as written all six lines are sent.
   */
  lemma OutOfBoundsLineAsWritten(k: Link)
    requires Usable(k.port)
    ensures Exec(Flagged, k, BleachLineStepsAsWritten(Bare(10.0), Bare(0.0), Bare(0.0), Bare(0.0), Time(1.0, Second), []), []).1
    ensures !Exec(Flagged, k, BleachLineSteps(Bare(10.0), Bare(0.0), Bare(0.0), Bare(0.0), Time(1.0, Second), []), []).1
  {
    BarePosition(10.0);
    BleachLineRunAsWritten(k, Bare(10.0), Bare(0.0), Bare(0.0), Bare(0.0), Time(1.0, Second), []);
    BleachLineRun(k, Bare(10.0), Bare(0.0), Bare(0.0), Bare(0.0), Time(1.0, Second), []);
  }

  // ------------------------------------------------------ BleachLineNTimes

  /** The pulse period the N-times procedure divides by: pulse plus delay, in microseconds. */
  function PulsePeriodUs(): (us: int)
    ensures us == Mcu.pulsePeriodUs
  {
    McuDefaultPulse();
    PulseDuration(Mcu, Mcu.dutyCycle) + PulseDelay(Mcu, Mcu.dutyCycle)
  }

  /**
   * The A-scan count of one forward pass (102, 106): a pass lasts
   * duration / (2·numScans), the return path being as long, and its length
   * in pulse periods is what a_scans is given.
   */
  function PassPulses(seconds: real, numScans: int): real
    requires numScans != 0
  {
    var durationPerOneWay := seconds / (numScans as real * 2.0);
    durationPerOneWay * 1000000.0 / PulsePeriodUs() as real
  }

  /** The set-up sends of BleachLineNTimes (104-111). */
  function NTimesSetup(startX: Length, startY: Length, stopX: Length, stopY: Length, duration: Time, numScans: int, flags: Flags)
    : seq<Result<Line>>
    requires numScans != 0
  {
    [ScanPulseDuration(Some(PulseOn())),
     ScanPulseDelay(Some(PulseOff())),
     Ok(ScanAScans(Some(PassPulses(ToSeconds(duration), numScans)))),
     ScanBScans(Some(0.0)),
     ScanReturnClockDivider(Some(1)),
     ScanReturnSetDuration(Some(Time(PulsePeriodUs() as real, Microsecond))),
     ScanXYRamp(Mcu, startX, startY, stopX, stopY, 1, flags)]
  }

  /**
   * GCommand_BleachLineNTimes (100-113): the line drawn numScans times back
   * and forth in the duration, waiting the duration after the scan.  With
   * numScans = 0 the division at line 102 raises before anything is sent.
   */
  function BleachLineNTimesSteps(startX: Length, startY: Length, stopX: Length, stopY: Length, duration: Time, numScans: int, flags: Flags)
    : seq<Step>
  {
    if numScans == 0 then [Step(Err(ZeroDivision), NoDelay)]
    else Series(NTimesSetup(startX, startY, stopX, stopY, duration, numScans, flags), Ok(ScanNTimes(numScans)), NoDelay, InSeconds(duration))
  }

  const ZeroDivision := "float division by zero"

  method BleachLineNTimes(mc: DirectSerial, startX: Length, startY: Length, stopX: Length, stopY: Length, duration: Time, numScans: int, flags: Flags)
    returns (ok: bool)
    modifies mc
    ensures (mc.Snapshot(), ok) == Exec(Flagged, old(mc.Snapshot()), BleachLineNTimesSteps(startX, startY, stopX, stopY, duration, numScans, flags), flags)
  {
    ok := mc.Run(BleachLineNTimesSteps(startX, startY, stopX, stopY, duration, numScans, flags), flags);
  }

  /** With no passes, the procedure raises before it sends or prints anything. */
  lemma NTimesZeroSendsNothing(k: Link, startX: Length, startY: Length, stopX: Length, stopY: Length, duration: Time, flags: Flags)
    ensures Exec(Flagged, k, BleachLineNTimesSteps(startX, startY, stopX, stopY, duration, 0, flags), flags) == (k, false)
  {
  }

  /**
   * The set-up commands: pulse 75, delay 25, a_scans, b_scans 0, A_div 1,
   * t_ret 100 and the ramp, which alone can fail; the last send is scan
   * numScans.
   */
  lemma NTimesCommands(startX: Length, startY: Length, stopX: Length, stopY: Length, duration: Time, numScans: int, flags: Flags)
    requires numScans != 0
    ensures var c := NTimesSetup(startX, startY, stopX, stopY, duration, numScans, flags);
      |c| == 7 && AllOk(c[..6]) &&
      c[0].value == Command("pulse", [75]) &&
      c[1].value == Command("delay", [25]) &&
      c[3].value == Command("b_scans", [0]) &&
      c[4].value == Command("A_div", [1]) &&
      c[5].value == Command("t_ret", [100]) &&
      (c[6].Ok? <==> XRampInBounds(Mcu, startX, stopX, flags) && YRampInBounds(Mcu, startY, stopY, flags))
  {
    SetupCommands();
    RoundInteger(100);
    assert Microseconds(Time(PulsePeriodUs() as real, Microsecond)) == 100.0;
  }

  /** A forward pass of PassPulses periods, taken 2·numScans times, fills the duration exactly. */
  lemma PassPulsesScale(seconds: real, numScans: int)
    requires numScans > 0
    ensures PassPulses(seconds, numScans) * (200.0 * numScans as real) == seconds * 1000000.0
    ensures seconds >= 0.0 ==> PassPulses(seconds, numScans) >= 0.0
  {
    var passes := numScans as real * 2.0;
    var q := seconds / passes;
    assert PulsePeriodUs() == 100;
    assert PassPulses(seconds, numScans) == q * 10000.0;
    assert q * passes == seconds;
    assert seconds >= 0.0 ==> q >= 0.0;
  }

  /**
   * The A-scan count is the number of whole pulse periods in one forward
   * pass: 2·numScans passes of a_scans periods of 100 µs fit in the
   * duration, and one more period each would not.
   */
  lemma NTimesPassFits(duration: Time, numScans: int)
    requires numScans > 0 && ToSeconds(duration) >= 0.0
    ensures var a := Trunc(PassPulses(ToSeconds(duration), numScans));
      a as real * (200.0 * numScans as real) <= ToSeconds(duration) * 1000000.0 < (a + 1) as real * (200.0 * numScans as real)
  {
    PassPulsesScale(ToSeconds(duration), numScans);
    TruncScaledBounds(PassPulses(ToSeconds(duration), numScans), 200.0 * numScans as real, ToSeconds(duration) * 1000000.0);
  }

  /** The only wait is the duration, after the scan. */
  lemma NTimesTiming(startX: Length, startY: Length, stopX: Length, stopY: Length, duration: Time, numScans: int, flags: Flags)
    requires numScans != 0
    ensures TotalDelay(Flagged, BleachLineNTimesSteps(startX, startY, stopX, stopY, duration, numScans, flags)) == ToSeconds(duration)
  {
    SeriesDelay(Flagged, NTimesSetup(startX, startY, stopX, stopY, duration, numScans, flags), Ok(ScanNTimes(numScans)),
                NoDelay, InSeconds(duration));
  }

  /**
   * One pass over a line inside the workspace, for a duration that is not
   * negative: every command encodes and every delay can be slept.
   */
  lemma NTimesOnceRunnable(startX: Length, startY: Length, stopX: Length, stopY: Length, duration: Time, flags: Flags)
    requires XRampInBounds(Mcu, startX, stopX, flags) && YRampInBounds(Mcu, startY, stopY, flags)
    requires ToSeconds(duration) >= 0.0
    ensures Runnable(Flagged, BleachLineNTimesSteps(startX, startY, stopX, stopY, duration, 1, flags))
  {
    var setup := NTimesSetup(startX, startY, stopX, stopY, duration, 1, flags);
    var steps := BleachLineNTimesSteps(startX, startY, stopX, stopY, duration, 1, flags);
    NTimesCommands(startX, startY, stopX, stopY, duration, 1, flags);
    forall i | 0 <= i < |steps| ensures steps[i].command.Ok? && SleepOk(Flagged, steps[i].delay) {
      if i < 6 {
        assert steps[i].command == setup[..6][i];
      } else if i == 6 {
        assert steps[i].command == setup[6];
      }
    }
  }

  /** The set-up sends of BleachLineNTimes as written: the ramp through the as-written encoder. */
  function NTimesSetupAsWritten(startX: Length, startY: Length, stopX: Length, stopY: Length, duration: Time, numScans: int, flags: Flags)
    : seq<Result<Line>>
    requires numScans != 0
  {
    NTimesSetup(startX, startY, stopX, stopY, duration, numScans, flags)[..6] + [ScanXYRampAsWritten(Mcu, startX, startY, stopX, stopY, 1, flags)]
  }

  function BleachLineNTimesStepsAsWritten(startX: Length, startY: Length, stopX: Length, stopY: Length, duration: Time, numScans: int, flags: Flags)
    : seq<Step>
  {
    if numScans == 0 then [Step(Err(ZeroDivision), NoDelay)]
    else Series(NTimesSetupAsWritten(startX, startY, stopX, stopY, duration, numScans, flags), Ok(ScanNTimes(numScans)), NoDelay, InSeconds(duration))
  }

  /**
   * As written, BleachLineNTimes on an open port (or with "disableOutput")
   * and a duration that is not negative finishes exactly when numScans is
   * not 0, wherever the line lies; then all eight lines reach the port and
   * the interface waits the duration.
   */
  lemma NTimesRunAsWritten(k: Link, startX: Length, startY: Length, stopX: Length, stopY: Length, duration: Time, numScans: int, flags: Flags)
    requires Usable(k.port) || DisableOutput(flags)
    requires ToSeconds(duration) >= 0.0
    ensures var steps := BleachLineNTimesStepsAsWritten(startX, startY, stopX, stopY, duration, numScans, flags);
      var r := Exec(Flagged, k, steps, flags);
      (r.1 <==> numScans != 0) &&
      (r.1 && !DisableOutput(flags) ==> r.0.wire == k.wire + Delivered(k.port.id, steps)) &&
      (r.1 ==> r.0.elapsed == k.elapsed + ToSeconds(duration))
  {
    if numScans != 0 {
      var setup := NTimesSetupAsWritten(startX, startY, stopX, stopY, duration, numScans, flags);
      NTimesCommands(startX, startY, stopX, stopY, duration, numScans, flags);
      XYRampAsWrittenAccepts(Mcu, startX, startY, stopX, stopY, 1, flags);
      forall i | 0 <= i < 7 ensures setup[i].Ok? {
        if i < 6 { assert setup[i] == NTimesSetup(startX, startY, stopX, stopY, duration, numScans, flags)[..6][i]; }
      }
      SeriesRun(Flagged, k, setup, Ok(ScanNTimes(numScans)), NoDelay, InSeconds(duration), flags);
    }
  }

  // -------------------------------------------------------- BleachFiducial

  /** The horizontal lines of a fiducial: one per ratio r, at y = cy + r·gap, across cx ± L/2. */
  function HorizontalLines(centerX: real, centerY: real, lineLength: real, gap: real, ratios: seq<real>): (segs: seq<Segment>)
    ensures |segs| == |ratios|
  {
    seq(|ratios|, i requires 0 <= i < |ratios| =>
      Segment(centerX - lineLength / 2.0, centerY + ratios[i] * gap, centerX + lineLength / 2.0, centerY + ratios[i] * gap))
  }

  /** The vertical lines: one per ratio r, at x = cx + r·gap, across cy ± L/2. */
  function VerticalLines(centerX: real, centerY: real, lineLength: real, gap: real, ratios: seq<real>): (segs: seq<Segment>)
    ensures |segs| == |ratios|
  {
    seq(|ratios|, i requires 0 <= i < |ratios| =>
      Segment(centerX + ratios[i] * gap, centerY - lineLength / 2.0, centerX + ratios[i] * gap, centerY + lineLength / 2.0))
  }

  /** One fiducial line: BleachLineNTimes once over the segment. */
  function NTimesLine(duration: Time, flags: Flags): Segment -> seq<Step>
  {
    (s: Segment) => BleachLineNTimesSteps(Bare(s.x0), Bare(s.y0), Bare(s.x1), Bare(s.y1), duration, 1, flags)
  }

  /** One fiducial line (166, 172): BleachLineNTimes once from the segment's first end to its second. */
  method DrawLine(mc: DirectSerial, s: Segment, duration: Time, flags: Flags) returns (ok: bool)
    modifies mc
    ensures (mc.Snapshot(), ok) == Exec(Flagged, old(mc.Snapshot()), NTimesLine(duration, flags)(s), flags)
  {
    ok := BleachLineNTimes(mc, Bare(s.x0), Bare(s.y0), Bare(s.x1), Bare(s.y1), duration, 1, flags);
  }

  /** GCommand_BleachFiducial (161-173): every horizontal line in list order, then every vertical one. */
  function BleachFiducialSteps(centerX: real, centerY: real, lineLength: real, gap: real,
                               verticalRatios: seq<real>, horizontalRatios: seq<real>, duration: Time, flags: Flags): seq<Step>
  {
    Each(HorizontalLines(centerX, centerY, lineLength, gap, horizontalRatios), NTimesLine(duration, flags)) +
    Each(VerticalLines(centerX, centerY, lineLength, gap, verticalRatios), NTimesLine(duration, flags))
  }

  method BleachFiducial(mc: DirectSerial, centerX: real, centerY: real, lineLength: real, markBaseGapWidth: real,
                        verticalRatios: seq<real>, horizontalRatios: seq<real>, duration: Time, flags: Flags)
    returns (ok: bool)
    modifies mc
    ensures (mc.Snapshot(), ok) == Exec(Flagged, old(mc.Snapshot()),
      BleachFiducialSteps(centerX, centerY, lineLength, markBaseGapWidth, verticalRatios, horizontalRatios, duration, flags), flags)
  {
    ghost var draw := NTimesLine(duration, flags);
    ghost var horizontal := Each(HorizontalLines(centerX, centerY, lineLength, markBaseGapWidth, horizontalRatios), draw);
    ghost var vertical := Each(VerticalLines(centerX, centerY, lineLength, markBaseGapWidth, verticalRatios), draw);
    ExecAppend(Flagged, mc.Snapshot(), horizontal, vertical, flags);
    ok := DrawHorizontal(mc, centerX, centerY, lineLength, markBaseGapWidth, horizontalRatios, duration, flags);
    if ok {
      ok := DrawVertical(mc, centerX, centerY, lineLength, markBaseGapWidth, verticalRatios, duration, flags);
    }
  }

  /** The first loop of BleachFiducial (163-167): the horizontal lines, stopping at the first that raises. */
  method DrawHorizontal(mc: DirectSerial, centerX: real, centerY: real, lineLength: real, markBaseGapWidth: real,
                        horizontalRatios: seq<real>, duration: Time, flags: Flags)
    returns (ok: bool)
    modifies mc
    ensures (mc.Snapshot(), ok) == Exec(Flagged, old(mc.Snapshot()),
      Each(HorizontalLines(centerX, centerY, lineLength, markBaseGapWidth, horizontalRatios), NTimesLine(duration, flags)), flags)
  {
    ghost var k0 := mc.Snapshot();
    ghost var draw := NTimesLine(duration, flags);
    ghost var hs := HorizontalLines(centerX, centerY, lineLength, markBaseGapWidth, horizontalRatios);
    ok := true;
    var i := 0;
    while i < |horizontalRatios|
      invariant 0 <= i <= |horizontalRatios|
      invariant Exec(Flagged, k0, Each(hs[..i], draw), flags) == (mc.Snapshot(), true)
    {
      var boundXStart := centerX - (lineLength / 2.0);
      var boundXStop := centerX + (lineLength / 2.0);
      var yPosition := centerY + (horizontalRatios[i] * markBaseGapWidth);
      assert hs[i] == Segment(boundXStart, yPosition, boundXStop, yPosition);
      ok := DrawLine(mc, Segment(boundXStart, yPosition, boundXStop, yPosition), duration, flags);
      ExecEachNext(Flagged, k0, hs, i, draw, flags, mc.Snapshot(), ok);
      if !ok {
        return;
      }
      i := i + 1;
    }
    assert hs[..i] == hs;
  }

  /** The second loop of BleachFiducial (169-173): the vertical lines, stopping at the first that raises. */
  method DrawVertical(mc: DirectSerial, centerX: real, centerY: real, lineLength: real, markBaseGapWidth: real,
                      verticalRatios: seq<real>, duration: Time, flags: Flags)
    returns (ok: bool)
    modifies mc
    ensures (mc.Snapshot(), ok) == Exec(Flagged, old(mc.Snapshot()),
      Each(VerticalLines(centerX, centerY, lineLength, markBaseGapWidth, verticalRatios), NTimesLine(duration, flags)), flags)
  {
    ghost var k0 := mc.Snapshot();
    ghost var draw := NTimesLine(duration, flags);
    ghost var vs := VerticalLines(centerX, centerY, lineLength, markBaseGapWidth, verticalRatios);
    ok := true;
    var j := 0;
    while j < |verticalRatios|
      invariant 0 <= j <= |verticalRatios|
      invariant Exec(Flagged, k0, Each(vs[..j], draw), flags) == (mc.Snapshot(), true)
    {
      var boundYStart := centerY - (lineLength / 2.0);
      var boundYStop := centerY + (lineLength / 2.0);
      var xPosition := centerX + (verticalRatios[j] * markBaseGapWidth);
      assert vs[j] == Segment(xPosition, boundYStart, xPosition, boundYStop);
      ok := DrawLine(mc, Segment(xPosition, boundYStart, xPosition, boundYStop), duration, flags);
      ExecEachNext(Flagged, k0, vs, j, draw, flags, mc.Snapshot(), ok);
      if !ok {
        return;
      }
      j := j + 1;
    }
    assert vs[..j] == vs;
  }

  /**
   * Every fiducial line has length L and is centred on the mark's axis: a
   * horizontal line for ratio r lies at y = cy + r·gap across cx ± L/2, a
   * vertical one at x = cx + r·gap across cy ± L/2.
   */
  lemma FiducialGeometry(centerX: real, centerY: real, lineLength: real, gap: real, verticalRatios: seq<real>, horizontalRatios: seq<real>)
    ensures forall i :: 0 <= i < |horizontalRatios| ==>
      var s := HorizontalLines(centerX, centerY, lineLength, gap, horizontalRatios)[i];
      s.y0 == s.y1 == centerY + horizontalRatios[i] * gap && s.x1 - s.x0 == lineLength && s.x0 + s.x1 == 2.0 * centerX
    ensures forall i :: 0 <= i < |verticalRatios| ==>
      var s := VerticalLines(centerX, centerY, lineLength, gap, verticalRatios)[i];
      s.x0 == s.x1 == centerX + verticalRatios[i] * gap && s.y1 - s.y0 == lineLength && s.y0 + s.y1 == 2.0 * centerY
  {
  }

  /**
   * A fiducial makes |H| + |V| BleachLineNTimes calls of eight commands
   * each: call j (horizontal lines first, in list order) draws line j, and
   * the fiducial waits the duration once per line.
   */
  lemma FiducialCalls(centerX: real, centerY: real, lineLength: real, gap: real,
                      verticalRatios: seq<real>, horizontalRatios: seq<real>, duration: Time, flags: Flags, j: nat)
    requires j < |horizontalRatios| + |verticalRatios|
    ensures var lines := HorizontalLines(centerX, centerY, lineLength, gap, horizontalRatios) +
                         VerticalLines(centerX, centerY, lineLength, gap, verticalRatios);
      var steps := BleachFiducialSteps(centerX, centerY, lineLength, gap, verticalRatios, horizontalRatios, duration, flags);
      |steps| == 8 * |lines| &&
      steps[8 * j..8 * (j + 1)] == NTimesLine(duration, flags)(lines[j]) &&
      TotalDelay(Flagged, steps) == Repeated(|lines|, ToSeconds(duration))
  {
    var draw := NTimesLine(duration, flags);
    var hs := HorizontalLines(centerX, centerY, lineLength, gap, horizontalRatios);
    var vs := VerticalLines(centerX, centerY, lineLength, gap, verticalRatios);
    forall s ensures |draw(s)| == 8 {
    }
    EachAppend(hs, vs, draw);
    EachAt(hs + vs, draw, 8, j);
    forall i | 0 <= i < |hs + vs| ensures TotalDelay(Flagged, draw((hs + vs)[i])) == ToSeconds(duration) {
      var s := (hs + vs)[i];
      NTimesTiming(Bare(s.x0), Bare(s.y0), Bare(s.x1), Bare(s.y1), duration, 1, flags);
    }
    EachDelay(Flagged, hs + vs, draw, ToSeconds(duration));
    assert j * 8 == 8 * j && (j + 1) * 8 == 8 * (j + 1);
  }

  /**
   * A 5 mm mark with a 50 µm gap, vertical ratios [-1, 0, 2] and horizontal
   * ones [-1, 1]: lines at y = -0.05 and y = 0.05 across x in [-2.5, 2.5], then
   * at x = -0.05, 0 and 0.1 across y in [-2.5, 2.5].
   */
  lemma FiducialExample()
    ensures HorizontalLines(0.0, 0.0, 5.0, 0.05, [-1.0, 1.0]) ==
      [Segment(-2.5, -0.05, 2.5, -0.05), Segment(-2.5, 0.05, 2.5, 0.05)]
    ensures VerticalLines(0.0, 0.0, 5.0, 0.05, [-1.0, 0.0, 2.0]) ==
      [Segment(-0.05, -2.5, -0.05, 2.5), Segment(0.0, -2.5, 0.0, 2.5), Segment(0.1, -2.5, 0.1, 2.5)]
  {
  }

  // ------------------------------------------------------ printed commands

  /** What a print procedure printed, and whether it ran to the end. */
  datatype Printout = Printout(lines: seq<string>, finished: bool)

  const VolumetricIntro := "After setting the desired A and B scan values, type this command into the setup window: "
  const VolumetricOutro := "Then hit \"update\" and then \"Save Volume\" when you are ready to collect data."

  /**
   * GCommand_PrintCMD_VolumetricScan (207-210): the ramp command to type in,
   * between two instructions.  It sends nothing; a ramp that does not encode
   * raises after the first line is printed.
   */
  function PrintVolumetricScan(startX: Length, startY: Length, stopX: Length, stopY: Length, bRepeats: int, flags: Flags): (r: Printout)
    ensures r.finished <==> XRampInBounds(Mcu, startX, stopX, flags) && YRampInBounds(Mcu, startY, stopY, flags)
    ensures r.finished ==> |r.lines| == 3 && r.lines[0] == VolumetricIntro && r.lines[2] == VolumetricOutro
    ensures r.finished ==> r.lines[1] == Render(Command("xy_ramp",
      [Trunc(XPosition(Mcu, startX, flags).value), Trunc(XPosition(Mcu, stopX, flags).value),
       Trunc(YPosition(Mcu, startY, flags).value), Trunc(YPosition(Mcu, stopY, flags).value), bRepeats]))
    ensures !r.finished ==> r.lines == [VolumetricIntro]
  {
    match ScanXYRamp(Mcu, startX, startY, stopX, stopY, bRepeats, flags)
    case Ok(ramp) => Printout([VolumetricIntro, Render(ramp), VolumetricOutro], true)
    case Err(_) => Printout([VolumetricIntro], false)
  }

  /** A 2 mm square about the centre, ten times: xy_ramp 12743 17257 12793 17207 10. */
  lemma VolumetricExample()
    ensures var r := PrintVolumetricScan(Bare(-1.0), Bare(-1.0), Bare(1.0), Bare(1.0), 10, []);
      r.finished && r.lines[1] == Render(Command("xy_ramp", [12743, 17257, 12793, 17207, 10]))
  {
    McuBareConversion(-1.0, []);
    McuBareConversion(1.0, []);
    McuCentres();
    assert Trunc(12743.0) == 12743 && Trunc(17257.0) == 17257 && Trunc(12793.0) == 12793 && Trunc(17207.0) == 17207;
  }

  /**
   * GCommand_PrintCMD_VolumetricScan as written: the ramp through the
   * as-written encoder.  The intro always comes first; a printout that
   * finishes has the ramp and the outro after it.
   */
  function PrintVolumetricScanAsWritten(startX: Length, startY: Length, stopX: Length, stopY: Length, bRepeats: int, flags: Flags)
    : (r: Printout)
    ensures |r.lines| >= 1 && r.lines[0] == VolumetricIntro
    ensures r.finished ==> |r.lines| == 3 && r.lines[2] == VolumetricOutro
  {
    match ScanXYRampAsWritten(Mcu, startX, startY, stopX, stopY, bRepeats, flags)
    case Ok(ramp) => Printout([VolumetricIntro, Render(ramp), VolumetricOutro], true)
    case Err(_) => Printout([VolumetricIntro], false)
  }

  /**
   * As written, every volumetric print finishes, wherever its ends lie, and
   * its ramp is 15000 - 2257·x0, 15000 + 2257·x1, 15000 - 2207·y0,
   * 15000 + 2207·y1 (millimetres, truncated).
   */
  lemma VolumetricPrintsAsWritten(startX: Length, startY: Length, stopX: Length, stopY: Length, bRepeats: int, flags: Flags)
    ensures var r := PrintVolumetricScanAsWritten(startX, startY, stopX, stopY, bRepeats, flags);
      r.finished && r.lines[1] == Render(Command("xy_ramp",
        [Trunc(15000.0 - Millimetres(startX) * 2257.0), Trunc(15000.0 + Millimetres(stopX) * 2257.0),
         Trunc(15000.0 - Millimetres(startY) * 2207.0), Trunc(15000.0 + Millimetres(stopY) * 2207.0), bRepeats]))
  {
    McuCentres();
    XYRampAsWrittenAccepts(Mcu, startX, startY, stopX, stopY, bRepeats, flags);
  }

  /** As written, the 2 mm square about the centre prints xy_ramp 17257 17257 17207 17207 10: both X ends at +1 mm. */
  lemma VolumetricExampleAsWritten()
    ensures var r := PrintVolumetricScanAsWritten(Bare(-1.0), Bare(-1.0), Bare(1.0), Bare(1.0), 10, []);
      r.finished && r.lines[1] == Render(Command("xy_ramp", [17257, 17257, 17207, 17207, 10]))
  {
    VolumetricPrintsAsWritten(Bare(-1.0), Bare(-1.0), Bare(1.0), Bare(1.0), 10, []);
    assert Millimetres(Bare(-1.0)) == -1.0 && Millimetres(Bare(1.0)) == 1.0;
    assert Trunc(17257.0) == 17257 && Trunc(17207.0) == 17207;
  }

  /** X distortion correction: 1.026409·x + 5.493 µm, in millimetres. */
  function AdjustX(x: Length): Length { Length(1.026409 * Millimetres(x) + 0.005493, Millimetre) }

  /** Y distortion correction: 1.0269·y + 4.939 µm, in millimetres. */
  function AdjustY(y: Length): Length { Length(1.0269 * Millimetres(y) + 0.004939, Millimetre) }

  /** The Y correction line 244 applies to stopY: its scale reads 1.02269. */
  function AdjustStopYAsWritten(y: Length): Length { Length(1.02269 * Millimetres(y) + 4.939 / 1000.0, Millimetre) }

  /**
   * GCommand_PrintCMD_VolumetricScanAdjusted (240-245), with one scale per
   * axis: both X ends are corrected by AdjustX and both Y ends by AdjustY.
   */
  function PrintVolumetricScanAdjusted(startX: Length, startY: Length, stopX: Length, stopY: Length, bRepeats: int, flags: Flags)
    : (r: Printout)
    ensures r.finished <==> XRampInBounds(Mcu, AdjustX(startX), AdjustX(stopX), flags) &&
                            YRampInBounds(Mcu, AdjustY(startY), AdjustY(stopY), flags)
    ensures r.finished ==> |r.lines| == 3 && r.lines[0] == VolumetricIntro && r.lines[2] == VolumetricOutro
    ensures r.finished ==> r.lines[1] == Render(Command("xy_ramp",
      [Trunc(XPosition(Mcu, AdjustX(startX), flags).value), Trunc(XPosition(Mcu, AdjustX(stopX), flags).value),
       Trunc(YPosition(Mcu, AdjustY(startY), flags).value), Trunc(YPosition(Mcu, AdjustY(stopY), flags).value), bRepeats]))
    ensures !r.finished ==> r.lines == [VolumetricIntro]
  {
    PrintVolumetricScan(AdjustX(startX), AdjustY(startY), AdjustX(stopX), AdjustY(stopY), bRepeats, flags)
  }

  /**
   * The adjusted print with line 244's scale as written: stopY is corrected
   * with the 1.02269 scale.  The ramp encoder is the corrected one, so that
   * the scale is the only departure from PrintVolumetricScanAdjusted.
   */
  function PrintVolumetricScanAdjustedScaleAsWritten(startX: Length, startY: Length, stopX: Length, stopY: Length, bRepeats: int, flags: Flags)
    : Printout
  {
    PrintVolumetricScan(AdjustX(startX), AdjustY(startY), AdjustX(stopX), AdjustStopYAsWritten(stopY), bRepeats, flags)
  }

  /**
   * With the corrected scales and the ramp encoder corrected, a request
   * whose two ends are the same Y length, in whatever units each is given
   * (a scan along X), prints a ramp whose Y start and stop are equal.
   */
  lemma AdjustedKeepsRows(startX: Length, startY: Length, stopX: Length, stopY: Length, bRepeats: int, flags: Flags)
    requires Millimetres(startY) == Millimetres(stopY)
    ensures var r := PrintVolumetricScanAdjusted(startX, startY, stopX, stopY, bRepeats, flags);
      r.finished ==> exists a: int, b: int, c: int :: r.lines[1] == Render(Command("xy_ramp", [a, b, c, c, bRepeats]))
  {
    var r := PrintVolumetricScanAdjusted(startX, startY, stopX, stopY, bRepeats, flags);
    if r.finished {
      var a := Trunc(XPosition(Mcu, AdjustX(startX), flags).value);
      var b := Trunc(XPosition(Mcu, AdjustX(stopX), flags).value);
      assert AdjustY(startY) == AdjustY(stopY);
      var c := Trunc(YPosition(Mcu, AdjustY(startY), flags).value);
      assert r.lines[1] == Render(Command("xy_ramp", [a, b, c, c, bRepeats]));
    }
  }

  /**
   * With line 244's scale as written and the ramp encoder corrected, the
   * request from (0, 1 mm) to (1 mm, 1 mm), a scan along X, prints Y ends
   * 17277 and 17267: the two ends of one row land 10 device units apart.
   * AdjustedFullyAsWrittenExample gives what the code prints with both as
   * written.
   */
  lemma AdjustedStopYCounterexample()
    ensures var r := PrintVolumetricScanAdjustedScaleAsWritten(Length(0.0, Millimetre), Length(1.0, Millimetre),
                                                         Length(1.0, Millimetre), Length(1.0, Millimetre), 1, []);
      r.finished && r.lines[1] == Render(Command("xy_ramp", [15012, 17329, 17277, 17267, 1]))
  {
    var x0, x1 := AdjustX(Length(0.0, Millimetre)), AdjustX(Length(1.0, Millimetre));
    var y0, y1 := AdjustY(Length(1.0, Millimetre)), AdjustStopYAsWritten(Length(1.0, Millimetre));
    assert Millimetres(x0) == 0.005493 && Millimetres(x1) == 1.031902;
    assert Millimetres(y0) == 1.031839 && Millimetres(y1) == 1.027629;
    McuCentres();
    assert XPosition(Mcu, x0, []).value == 15012.397701;
    assert XPosition(Mcu, x1, []).value == 17329.002814;
    assert YPosition(Mcu, y0, []).value == 17277.268673;
    assert YPosition(Mcu, y1, []).value == 17267.977203;
  }

  /**
   * Fully as written, with both the 1.02269 scale and the as-written ramp,
   * the request from (0, 1 mm) to (1 mm, 1 mm) prints
   * xy_ramp 14987 17329 12722 17267 1.
   */
  lemma AdjustedFullyAsWrittenExample()
    ensures var r := PrintVolumetricScanAsWritten(AdjustX(Length(0.0, Millimetre)), AdjustY(Length(1.0, Millimetre)),
                                                  AdjustX(Length(1.0, Millimetre)), AdjustStopYAsWritten(Length(1.0, Millimetre)), 1, []);
      r.finished && r.lines[1] == Render(Command("xy_ramp", [14987, 17329, 12722, 17267, 1]))
  {
    var x0, x1 := AdjustX(Length(0.0, Millimetre)), AdjustX(Length(1.0, Millimetre));
    var y0, y1 := AdjustY(Length(1.0, Millimetre)), AdjustStopYAsWritten(Length(1.0, Millimetre));
    assert Millimetres(x0) == 0.005493 && Millimetres(x1) == 1.031902;
    assert Millimetres(y0) == 1.031839 && Millimetres(y1) == 1.027629;
    VolumetricPrintsAsWritten(x0, y0, x1, y1, 1, []);
    assert 15000.0 - Millimetres(x0) * 2257.0 == 14987.602299;
    assert 15000.0 + Millimetres(x1) * 2257.0 == 17329.002814;
    assert 15000.0 - Millimetres(y0) * 2207.0 == 12722.731327;
    assert 15000.0 + Millimetres(y1) * 2207.0 == 17267.977203;
    assert Trunc(14987.602299) == 14987 && Trunc(17329.002814) == 17329;
    assert Trunc(12722.731327) == 12722 && Trunc(17267.977203) == 17267;
  }
}
