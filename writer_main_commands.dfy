/**
 * WasatchWritter/Code/Wasatch_Main_Commands.py: the oldest drawing
 * procedures, on the legacy serial interface (LegacySerial.DirectSerial,
 * which always writes and echoes and sleeps for a unit-tagged delay) and
 * the span calibration.  As in McuMainCommands, each procedure is a method
 * proved to make exactly the calls of a list of Steps, and the lemmas state
 * what the lists contain and what running them does.
 *
 * Departures from the text, each following the evident intent:
 *   lines 37, 167, 201: WCommand_ScanXYRamp is handed two point tuples,
 *     which does not match its parameters (a TypeError); the model passes
 *     the points' four coordinates, one repeat and no flags;
 *   lines 158-161: `markWidth` is undefined; the X extent is scanWidth and
 *     the Y extent scanHeight;
 *   lines 188-189: `pixelsHigh` is pixelsTall;
 *   line 199: `sendcommand` is sendCommand;
 *   Wasatch_Conversions.py, which this revision imports, writes
 *     `!isinstance`, a syntax error, read as `not isinstance`.
 * Division is Python 3's: columns / 2 and rows / 2 are exact.
 *
 * Conversions: WConvert_ToSeconds (Wasatch_Conversions.py:102-106) calls
 * float() first, so any unit-tagged time raises: the 75 µs and 25 µs that
 * WConvert_PulseDuration() and WConvert_PulseDelay() return to the first two
 * set-up sends, and the 100 µs PULSEPERIOD that WConvert_NumScansFromSecs
 * divides by; this interface's sleep meanwhile raises on a bare time.  The
 * model converts the set-up and the scan count with Calibration.ToSeconds,
 * which takes both, as that function's own description promises;
 * SetupRaisesAsWritten and BleachLineNeverFinishesAsWritten show what the
 * text does.
 *
 * Ramps: Ramp is the corrected SerialCommands.ScanXYRamp, which adds the
 * start offset to the centre and checks the span.  As written the encoder
 * subtracts the start offset and checks nothing; RampAsWritten is that
 * encoder, and BleachLineStepsAsWritten and VolumetricStepsAsWritten use it.
 */
module LegacyMainCommands {
  import opened Wrappers
  import opened Units
  import opened Rounding
  import opened WireFormat
  import opened Calibration
  import SpanCalibration
  import opened SerialCommands
  import opened Transport
  import opened Segments
  import opened SendSeries
  import opened LegacySerial

  /** sendCommand's default delay, 0 * unitRegistry.seconds: every set-up send takes it. */
  const Default := Time(0.0, Second)

  /** WConvert_PulseDuration() and WConvert_PulseDelay(): pint microseconds at the default duty cycle. */
  function PulseOn(): Time
  {
    Time(PulseDuration(SpanCalibration.Span, SpanCalibration.Span.dutyCycle) as real, Microsecond)
  }

  function PulseOff(): Time
  {
    Time(PulseDelay(SpanCalibration.Span, SpanCalibration.Span.dutyCycle) as real, Microsecond)
  }

  /** WConvert_NumScansFromSecs(duration) with its defaults, the duration converted by Calibration.ToSeconds. */
  function ScanCount(duration: Time): int
  {
    SpanCalibration.SpanOk();
    NumScansFromSecs(SpanCalibration.Span, duration, Time(100.0, Microsecond), 100)
  }

  /** The scan count is the least number of 0.01 s sweeps that covers the duration. */
  lemma ScanCountCovers(duration: Time)
    ensures ScanCount(duration) as real * 0.01 >= ToSeconds(duration)
    ensures (ScanCount(duration) - 1) as real * 0.01 < ToSeconds(duration)
  {
    SpanCalibration.SpanOk();
    assert SweepSeconds(SpanCalibration.Span) == 0.01;
  }

  /** The default delay can be slept on the legacy interface, for no time. */
  lemma DefaultSleepsNothing()
    ensures SleepOk(Legacy, Default) && SleepSeconds(Legacy, Default) == 0.0
  {
  }

  /**
   * The four set-up sends that open BleachLine (32-35), TestGrid (90-93),
   * TestBars (114-117) and BleachGrid (137-140): the pulse shape, one sweep
   * of 100 A-scans, no B-scans.
   */
  function Setup(): seq<Result<Line>>
  {
    [ScanPulseDuration(Some(PulseOn())),
     ScanPulseDelay(Some(PulseOff())),
     Ok(ScanAScans(Some(PulsesPerSweep(SpanCalibration.Span) as real))),
     ScanBScans(Some(0.0))]
  }

  /** They encode as pulse 75, delay 25, a_scans 100 and b_scans 0. */
  lemma SetupCommands()
    ensures Setup() == [Ok(Command("pulse", [75])), Ok(Command("delay", [25])),
                        Ok(Command("a_scans", [100])), Ok(Command("b_scans", [0]))]
  {
    RoundInteger(75);
    RoundInteger(25);
    assert Microseconds(PulseOn()) == 75.0;
    assert Microseconds(PulseOff()) == 25.0;
    assert Trunc(25.0) == 25 && Trunc(100.0) == 100 && Trunc(0.0) == 0;
  }

  /** Every set-up command encodes. */
  lemma SetupOk()
    ensures AllOk(Setup())
  {
    SetupCommands();
  }

  /** The set-up sends as calls, each with the default delay. */
  function SetupSteps(): (steps: seq<Step>)
    ensures |steps| == 4
    ensures forall i :: 0 <= i < 4 ==> steps[i] == Step(Setup()[i], Default)
  {
    seq(4, i requires 0 <= i < 4 => Step(Setup()[i], Default))
  }

  /** Calls that all take the default delay wait for nothing. */
  lemma {:induction false} NoWait(steps: seq<Step>)
    requires forall i :: 0 <= i < |steps| ==> steps[i].delay == Default
    ensures TotalDelay(Legacy, steps) == 0.0
    decreases |steps|
  {
    if |steps| > 0 {
      assert steps[0].delay == Default;
      assert forall i :: 0 <= i < |steps[1..]| ==> steps[1..][i] == steps[i + 1];
      NoWait(steps[1..]);
    }
  }

  // ------------------------------------------------------------ BleachLine

  /** The ramp between two points: the corrected encoder on the Span profile, one repeat, no flags. */
  function Ramp(start: Point, stop: Point): Result<Line>
  {
    ScanXYRamp(SpanCalibration.Span, Bare(start.x), Bare(start.y), Bare(stop.x), Bare(stop.y), 1, [])
  }

  /** Both ends lie in the span once converted. */
  predicate RampInBounds(start: Point, stop: Point)
  {
    XRampInBounds(SpanCalibration.Span, Bare(start.x), Bare(stop.x), []) &&
    YRampInBounds(SpanCalibration.Span, Bare(start.y), Bare(stop.y), [])
  }

  /** A bare coordinate v lies at 15556.5 + 2095.1·v across and 13955 + 2092.6·v up. */
  lemma SpanPosition(v: real)
    ensures XPosition(SpanCalibration.Span, Bare(v), []) == Some(15556.5 + v * 2095.1)
    ensures YPosition(SpanCalibration.Span, Bare(v), []) == Some(13955.0 + v * 2092.6)
  {
    SpanCalibration.SpanCentres();
    SpanCalibration.SpanGains();
    assert Millimetres(Bare(v)) == v;
  }

  /**
   * The ramp between two points through the as-written encoder
   * (Wasatch_Serial_Commands.py 580-587): it always encodes, each start is
   * the centre minus its offset and each stop the centre plus its offset.
   */
  function RampAsWritten(start: Point, stop: Point): (r: Result<Line>)
    ensures r == Ok(Command("xy_ramp",
      [Trunc(15556.5 - start.x * 2095.1), Trunc(15556.5 + stop.x * 2095.1),
       Trunc(13955.0 - start.y * 2092.6), Trunc(13955.0 + stop.y * 2092.6), 1]))
  {
    SpanCalibration.SpanCentres();
    SpanCalibration.SpanGains();
    XYRampAsWrittenAccepts(SpanCalibration.Span, Bare(start.x), Bare(start.y), Bare(stop.x), Bare(stop.y), 1, []);
    assert Millimetres(Bare(start.x)) == start.x && Millimetres(Bare(stop.x)) == stop.x;
    assert Millimetres(Bare(start.y)) == start.y && Millimetres(Bare(stop.y)) == stop.y;
    ScanXYRampAsWritten(SpanCalibration.Span, Bare(start.x), Bare(start.y), Bare(stop.x), Bare(stop.y), 1, [])
  }

  /** GCommand_BleachLine (30-39): the set-up, the ramp, then scan n with the duration as its delay. */
  function BleachLineSteps(start: Point, stop: Point, duration: Time): seq<Step>
  {
    Series(Setup() + [Ramp(start, stop)], Ok(ScanNTimes(ScanCount(duration))), Default, duration)
  }

  method BleachLine(mc: DirectSerial, start: Point, stop: Point, duration: Time) returns (ok: bool)
    modifies mc
    ensures (mc.Snapshot(), ok) == Exec(Legacy, old(mc.Snapshot()), BleachLineSteps(start, stop, duration), [])
  {
    ok := mc.Run(BleachLineSteps(start, stop, duration));
  }

  /**
   * BleachLine's calls, in order: pulse 75, delay 25, a_scans 100 and
   * b_scans 0 with no delay, the ramp with no delay, and scan n with the
   * duration; only the ramp can fail to encode, exactly when an end lies
   * outside the span.
   */
  lemma BleachLineCommands(start: Point, stop: Point, duration: Time)
    ensures var steps := BleachLineSteps(start, stop, duration);
      |steps| == 6 && steps[..4] == SetupSteps() &&
      steps[4] == Step(Ramp(start, stop), Default) &&
      steps[5] == Step(Ok(Command("scan", [ScanCount(duration)])), duration) &&
      (Ramp(start, stop).Ok? <==> RampInBounds(start, stop))
  {
    var steps := BleachLineSteps(start, stop, duration);
    var setup := Setup() + [Ramp(start, stop)];
    assert steps[..4] == SetupSteps() by {
      forall i | 0 <= i < 4 ensures steps[i] == SetupSteps()[i] {
        assert setup[i] == Setup()[i];
      }
    }
  }

  /**
   * On an open port with a tagged, non-negative duration, BleachLine
   * finishes exactly when the line lies in the span; then all six lines go
   * out and are echoed in order, and the interface waits the duration.
   */
  lemma BleachLineRun(k: Link, start: Point, stop: Point, duration: Time)
    requires Usable(k.port)
    requires duration.unit != BareTime && Seconds(duration) >= 0.0
    ensures var steps := BleachLineSteps(start, stop, duration);
      var r := Exec(Legacy, k, steps, []);
      (r.1 <==> RampInBounds(start, stop)) &&
      (r.1 ==> r.0.wire == k.wire + Delivered(k.port.id, steps) &&
               r.0.console == k.console + Echoed(steps) &&
               r.0.elapsed == k.elapsed + Seconds(duration))
  {
    SetupCommands();
    var setup := Setup() + [Ramp(start, stop)];
    SeriesRun(Legacy, k, setup, Ok(ScanNTimes(ScanCount(duration))), Default, duration, []);
    assert AllOk(setup) <==> Ramp(start, stop).Ok? by {
      assert setup[4] == Ramp(start, stop);
      assert forall i :: 0 <= i < 4 ==> setup[i] == Setup()[i];
    }
  }

  /** A BleachLine that finishes was given a tagged, non-negative duration: the last sleep refuses any other. */
  lemma BleachLineNeedsTaggedDuration(k: Link, start: Point, stop: Point, duration: Time)
    ensures Exec(Legacy, k, BleachLineSteps(start, stop, duration), []).1 ==>
      duration.unit != BareTime && Seconds(duration) >= 0.0
  {
    var steps := BleachLineSteps(start, stop, duration);
    if Exec(Legacy, k, steps, []).1 {
      ExecSleeps(Legacy, k, steps, []);
      assert steps[5].delay == duration;
    }
  }

  /**
   * WCommand_ScanPulseDuration as written in this revision
   * (Wasatch_Serial_Commands.py:289-296): it converts with
   * WConvert_ToSeconds (Wasatch_Conversions.py:102-106), whose float()
   * raises on a unit-tagged time, before rounding and checking 0..605535.
   */
  function PulseSendAsWritten(t: Time): (r: Result<Line>)
    ensures r.Ok? <==> t.unit == BareTime && 0 <= RoundHalfEven(Microseconds(t)) <= 605535
    ensures r.Ok? ==> r.value == Command("pulse", [RoundHalfEven(Microseconds(t))])
  {
    if SpanCalibration.ToSeconds(t).None? then Err("float() of a unit-tagged pulse duration")
    else ScanPulseDurationAsWritten(Some(t))
  }

  /** WCommand_ScanPulseDelay as written (262-269): the same float() first, then truncation and 3..65535. */
  function DelaySendAsWritten(t: Time): (r: Result<Line>)
    ensures r.Ok? <==> t.unit == BareTime && 3 <= Trunc(Microseconds(t)) <= MaxCount
    ensures r.Ok? ==> r.value == Command("delay", [Trunc(Microseconds(t))])
  {
    if SpanCalibration.ToSeconds(t).None? then Err("float() of a unit-tagged pulse delay")
    else ScanPulseDelay(Some(t))
  }

  /**
   * The set-up sends as written.  WConvert_PulseDuration() and
   * WConvert_PulseDelay() (Wasatch_Conversions.py:154-155, 163-164) return
   * pint microseconds, so the first send already raises.
   */
  function SetupAsWritten(): seq<Result<Line>>
  {
    [PulseSendAsWritten(PulseOn()), DelaySendAsWritten(PulseOff()), Setup()[2], Setup()[3]]
  }

  function SetupStepsAsWritten(): (steps: seq<Step>)
    ensures |steps| == 4
    ensures forall i :: 0 <= i < 4 ==> steps[i] == Step(SetupAsWritten()[i], Default)
  {
    seq(4, i requires 0 <= i < 4 => Step(SetupAsWritten()[i], Default))
  }

  /**
   * As written, BleachLine (32), TestGrid (90), TestBars (114) and
   * BleachGrid (137) raise at their first send, whatever follows it:
   * nothing is written, echoed or slept.
   */
  lemma SetupRaisesAsWritten(k: Link, rest: seq<Step>)
    ensures Exec(Legacy, k, SetupStepsAsWritten() + rest, []) == (k, false)
  {
    var steps := SetupStepsAsWritten() + rest;
    assert steps[0] == Step(PulseSendAsWritten(PulseOn()), Default);
    assert PulseOn().unit == Microsecond;
  }

  /**
   * WConvert_NumScansFromSecs as written (127-128): float() raises on a
   * unit-tagged duration, and the divisor WConvert_ToSeconds(PULSEPERIOD)
   * is float() of the tagged 100 µs, so the count raises for every duration.
   */
  function ScanCountAsWritten(duration: Time): (r: Result<int>)
    ensures r.Err?
  {
    if SpanCalibration.ToSeconds(duration).None? then Err("float() of a unit-tagged duration")
    else if SpanCalibration.ToSeconds(Time(100.0, Microsecond)).None? then Err("float() of the unit-tagged PULSEPERIOD")
    else Ok(ScanCount(duration))
  }

  /** BleachLine as written: the set-up and the scan count are both converted as the text converts them. */
  function BleachLineStepsAsWritten(start: Point, stop: Point, duration: Time): seq<Step>
  {
    var final := match ScanCountAsWritten(duration)
      case Ok(n) => Ok(ScanNTimes(n))
      case Err(e) => Err(e);
    Series(SetupAsWritten() + [RampAsWritten(start, stop)], final, Default, duration)
  }

  /**
   * As written, no BleachLine finishes or even writes: the pulse-duration
   * send raises first, whatever the points and the duration, and the link
   * is left as it was.
   */
  lemma BleachLineNeverFinishesAsWritten(k: Link, start: Point, stop: Point, duration: Time)
    ensures Exec(Legacy, k, BleachLineStepsAsWritten(start, stop, duration), []) == (k, false)
  {
    var steps := BleachLineStepsAsWritten(start, stop, duration);
    assert steps == SetupStepsAsWritten() + steps[4..];
    SetupRaisesAsWritten(k, steps[4..]);
  }

  // ------------------------------------------------------- BleachFiducial

  /** One line of a fiducial or a grid: BleachLine from the segment's first end to its second. */
  function LineDraw(duration: Time): Segment -> seq<Step>
  {
    (s: Segment) => BleachLineSteps(Point(s.x0, s.y0), Point(s.x1, s.y1), duration)
  }

  method DrawLine(mc: DirectSerial, s: Segment, duration: Time) returns (ok: bool)
    modifies mc
    ensures (mc.Snapshot(), ok) == Exec(Legacy, old(mc.Snapshot()), LineDraw(duration)(s), [])
  {
    ok := BleachLine(mc, Point(s.x0, s.y0), Point(s.x1, s.y1), duration);
  }

  /**
   * The lines of GCommand_BleachFiducial (54-74), in drawing order: across
   * at y = cy - gap/2 and cy + gap/2 (61-64), up at x = cx - gap/2 and
   * cx + gap/2 (66-69), then for orientation "V" or "H" one more line
   * through the centre (71-74).
   */
  function FiducialLines(center: Point, markWidth: real, markGapWidth: real, orientation: string): seq<Segment>
  {
    AcrossLines(center, markWidth, markGapWidth) + UpLines(center, markWidth, markGapWidth) +
    CentreLines(center, markWidth, orientation)
  }

  function AcrossLines(center: Point, markWidth: real, markGapWidth: real): seq<Segment>
  {
    var boundXStart := center.x - markWidth / 2.0;
    var boundXStop := center.x + markWidth / 2.0;
    var hLowY := center.y - markGapWidth / 2.0;
    var hHighY := center.y + markGapWidth / 2.0;
    [Segment(boundXStart, hLowY, boundXStop, hLowY), Segment(boundXStart, hHighY, boundXStop, hHighY)]
  }

  function UpLines(center: Point, markWidth: real, markGapWidth: real): seq<Segment>
  {
    var boundYStart := center.y - markWidth / 2.0;
    var boundYStop := center.y + markWidth / 2.0;
    var vLowX := center.x - markGapWidth / 2.0;
    var vHighX := center.x + markGapWidth / 2.0;
    [Segment(vLowX, boundYStart, vLowX, boundYStop), Segment(vHighX, boundYStart, vHighX, boundYStop)]
  }

  function CentreLines(center: Point, markWidth: real, orientation: string): seq<Segment>
  {
    (if orientation == "V" then [Segment(center.x, center.y - markWidth / 2.0, center.x, center.y + markWidth / 2.0)] else []) +
    (if orientation == "H" then [Segment(center.x - markWidth / 2.0, center.y, center.x + markWidth / 2.0, center.y)] else [])
  }

  method BleachFiducial(mc: DirectSerial, center: Point, markWidth: real, markGapWidth: real,
                        duration: Time, orientation: string)
    returns (ok: bool)
    modifies mc
    ensures (mc.Snapshot(), ok) == Exec(Legacy, old(mc.Snapshot()),
      Each(FiducialLines(center, markWidth, markGapWidth, orientation), LineDraw(duration)), [])
  {
    ghost var k0 := mc.Snapshot();
    ghost var draw := LineDraw(duration);
    ghost var across := AcrossLines(center, markWidth, markGapWidth);
    ghost var up := UpLines(center, markWidth, markGapWidth);
    ghost var centre := CentreLines(center, markWidth, orientation);
    EachAppend(across + up, centre, draw);
    EachAppend(across, up, draw);
    ExecAppend(Legacy, k0, Each(across, draw) + Each(up, draw), Each(centre, draw), []);
    ExecAppend(Legacy, k0, Each(across, draw), Each(up, draw), []);
    ok := DrawAcross(mc, center, markWidth, markGapWidth, duration);
    if ok {
      ok := DrawUp(mc, center, markWidth, markGapWidth, duration);
    }
    if ok {
      ok := DrawCentre(mc, center, markWidth, duration, orientation);
    }
  }

  /** The two lines across (56-64), stopping at the first that raises. */
  method DrawAcross(mc: DirectSerial, center: Point, markWidth: real, markGapWidth: real, duration: Time)
    returns (ok: bool)
    modifies mc
    ensures (mc.Snapshot(), ok) == Exec(Legacy, old(mc.Snapshot()), Each(AcrossLines(center, markWidth, markGapWidth), LineDraw(duration)), [])
  {
    ghost var k0 := mc.Snapshot();
    ghost var lines := AcrossLines(center, markWidth, markGapWidth);
    assert lines[..0] == [];
    var boundXStart := center.x - (markWidth / 2.0);
    var boundXStop := center.x + (markWidth / 2.0);
    var hLowY := center.y - (markGapWidth / 2.0);
    var hHighY := center.y + (markGapWidth / 2.0);
    assert lines[0] == Segment(boundXStart, hLowY, boundXStop, hLowY) && lines[1] == Segment(boundXStart, hHighY, boundXStop, hHighY);
    ok := DrawLine(mc, Segment(boundXStart, hLowY, boundXStop, hLowY), duration);
    ExecEachNext(Legacy, k0, lines, 0, LineDraw(duration), [], mc.Snapshot(), ok);
    if !ok {
      return;
    }
    ok := DrawLine(mc, Segment(boundXStart, hHighY, boundXStop, hHighY), duration);
    ExecEachNext(Legacy, k0, lines, 1, LineDraw(duration), [], mc.Snapshot(), ok);
    assert lines[..2] == lines;
  }

  /** The two lines up (58-59, 66-69), stopping at the first that raises. */
  method DrawUp(mc: DirectSerial, center: Point, markWidth: real, markGapWidth: real, duration: Time)
    returns (ok: bool)
    modifies mc
    ensures (mc.Snapshot(), ok) == Exec(Legacy, old(mc.Snapshot()), Each(UpLines(center, markWidth, markGapWidth), LineDraw(duration)), [])
  {
    ghost var k0 := mc.Snapshot();
    ghost var lines := UpLines(center, markWidth, markGapWidth);
    assert lines[..0] == [];
    var boundYStart := center.y - (markWidth / 2.0);
    var boundYStop := center.y + (markWidth / 2.0);
    var vLowX := center.x - (markGapWidth / 2.0);
    var vHighX := center.x + (markGapWidth / 2.0);
    assert lines[0] == Segment(vLowX, boundYStart, vLowX, boundYStop) && lines[1] == Segment(vHighX, boundYStart, vHighX, boundYStop);
    ok := DrawLine(mc, Segment(vLowX, boundYStart, vLowX, boundYStop), duration);
    ExecEachNext(Legacy, k0, lines, 0, LineDraw(duration), [], mc.Snapshot(), ok);
    if !ok {
      return;
    }
    ok := DrawLine(mc, Segment(vHighX, boundYStart, vHighX, boundYStop), duration);
    ExecEachNext(Legacy, k0, lines, 1, LineDraw(duration), [], mc.Snapshot(), ok);
    assert lines[..2] == lines;
  }

  /** The orientation line (71-74): vertical for "V", horizontal for "H", none otherwise. */
  method DrawCentre(mc: DirectSerial, center: Point, markWidth: real, duration: Time, orientation: string)
    returns (ok: bool)
    modifies mc
    ensures (mc.Snapshot(), ok) == Exec(Legacy, old(mc.Snapshot()), Each(CentreLines(center, markWidth, orientation), LineDraw(duration)), [])
  {
    ghost var lines := CentreLines(center, markWidth, orientation);
    ok := true;
    if orientation == "V" {
      var line := Segment(center.x, center.y - (markWidth / 2.0), center.x, center.y + (markWidth / 2.0));
      assert lines == [line] && lines[..0] == [];
      assert Each(lines, LineDraw(duration)) == LineDraw(duration)(line);
      ok := DrawLine(mc, line, duration);
    }
    if orientation == "H" {
      var line := Segment(center.x - (markWidth / 2.0), center.y, center.x + (markWidth / 2.0), center.y);
      assert lines == [line] && lines[..0] == [];
      assert Each(lines, LineDraw(duration)) == LineDraw(duration)(line);
      ok := DrawLine(mc, line, duration);
    }
  }

  /**
   * The mark is a pound sign of markWidth-long lines centred on the centre,
   * its parallel lines markGapWidth apart, plus the orientation line
   * through the centre for "V" (vertical) or "H" (horizontal) only.
   */
  lemma FiducialGeometry(center: Point, markWidth: real, markGapWidth: real, orientation: string)
    ensures var lines := FiducialLines(center, markWidth, markGapWidth, orientation);
      |lines| == (if orientation == "V" || orientation == "H" then 5 else 4) &&
      (forall i :: 0 <= i < 2 ==>
         lines[i].y0 == lines[i].y1 && lines[i].x1 - lines[i].x0 == markWidth && lines[i].x0 + lines[i].x1 == 2.0 * center.x) &&
      (forall i :: 2 <= i < 4 ==>
         lines[i].x0 == lines[i].x1 && lines[i].y1 - lines[i].y0 == markWidth && lines[i].y0 + lines[i].y1 == 2.0 * center.y) &&
      lines[1].y0 - lines[0].y0 == markGapWidth && lines[0].y0 + lines[1].y0 == 2.0 * center.y &&
      lines[3].x0 - lines[2].x0 == markGapWidth && lines[2].x0 + lines[3].x0 == 2.0 * center.x &&
      (orientation == "V" ==> lines[4] == Segment(center.x, center.y - markWidth / 2.0, center.x, center.y + markWidth / 2.0)) &&
      (orientation == "H" ==> lines[4] == Segment(center.x - markWidth / 2.0, center.y, center.x + markWidth / 2.0, center.y))
  {
  }

  /**
   * The fiducial makes one BleachLine of six calls per line: call j draws
   * line j, and the fiducial waits the duration once per line.
   */
  lemma FiducialCalls(center: Point, markWidth: real, markGapWidth: real, orientation: string, duration: Time, j: nat)
    requires j < |FiducialLines(center, markWidth, markGapWidth, orientation)|
    ensures var lines := FiducialLines(center, markWidth, markGapWidth, orientation);
      var steps := Each(lines, LineDraw(duration));
      |steps| == 6 * |lines| &&
      steps[6 * j..6 * (j + 1)] == LineDraw(duration)(lines[j]) &&
      TotalDelay(Legacy, steps) == Repeated(|lines|, Seconds(duration))
  {
    LinesCalls(FiducialLines(center, markWidth, markGapWidth, orientation), duration, j);
  }

  /** Any list of lines drawn with BleachLine: six calls per line, in list order, one wait per line. */
  lemma LinesCalls(lines: seq<Segment>, duration: Time, j: nat)
    requires j < |lines|
    ensures var steps := Each(lines, LineDraw(duration));
      |steps| == 6 * |lines| &&
      steps[6 * j..6 * (j + 1)] == LineDraw(duration)(lines[j]) &&
      TotalDelay(Legacy, steps) == Repeated(|lines|, Seconds(duration))
  {
    var draw := LineDraw(duration);
    forall s ensures |draw(s)| == 6 {
    }
    EachAt(lines, draw, 6, j);
    LinesDelay(lines, duration);
    assert j * 6 == 6 * j && (j + 1) * 6 == 6 * (j + 1);
  }

  /** Any list of lines drawn with BleachLine waits the duration once per line. */
  lemma LinesDelay(lines: seq<Segment>, duration: Time)
    ensures TotalDelay(Legacy, Each(lines, LineDraw(duration))) == Repeated(|lines|, Seconds(duration))
  {
    forall i | 0 <= i < |lines| ensures TotalDelay(Legacy, LineDraw(duration)(lines[i])) == Seconds(duration) {
      LineDelay(lines[i], duration);
    }
    EachDelay(Legacy, lines, LineDraw(duration), Seconds(duration));
  }

  /** One line waits the duration once. */
  lemma LineDelay(s: Segment, duration: Time)
    ensures TotalDelay(Legacy, LineDraw(duration)(s)) == Seconds(duration)
  {
    assert LineDraw(duration)(s) == BleachLineSteps(Point(s.x0, s.y0), Point(s.x1, s.y1), duration);
    DefaultSleepsNothing();
    SeriesDelay(Legacy, Setup() + [Ramp(Point(s.x0, s.y0), Point(s.x1, s.y1))],
                Ok(ScanNTimes(ScanCount(duration))), Default, duration);
  }

  /** Line i's ends, converted, lie in the span. */
  predicate LineInSpan(s: Segment)
  {
    RampInBounds(Point(s.x0, s.y0), Point(s.x1, s.y1))
  }

  predicate LinesInSpan(lines: seq<Segment>)
  {
    forall i :: 0 <= i < |lines| ==> LineInSpan(lines[i])
  }

  /** A line in the span, with a tagged, non-negative duration: all six of its calls encode and can sleep. */
  lemma LineRunnable(s: Segment, duration: Time)
    requires duration.unit != BareTime && Seconds(duration) >= 0.0
    requires LineInSpan(s)
    ensures Runnable(Legacy, LineDraw(duration)(s))
  {
    var steps := LineDraw(duration)(s);
    BleachLineCommands(Point(s.x0, s.y0), Point(s.x1, s.y1), duration);
    SetupRunnable();
    forall i | 0 <= i < |steps| ensures steps[i].command.Ok? && SleepOk(Legacy, steps[i].delay) {
      if i < 4 {
        assert steps[i] == steps[..4][i];
      }
    }
  }

  /** Lines that all lie in the span, with a tagged, non-negative duration, make a runnable list. */
  lemma LinesRunnable(lines: seq<Segment>, duration: Time)
    requires duration.unit != BareTime && Seconds(duration) >= 0.0
    requires LinesInSpan(lines)
    ensures Runnable(Legacy, Each(lines, LineDraw(duration)))
  {
    forall i | 0 <= i < |lines| ensures Runnable(Legacy, LineDraw(duration)(lines[i])) {
      LineRunnable(lines[i], duration);
    }
    EachRunnable(Legacy, lines, LineDraw(duration));
  }

  /** A run of lines that finishes had every line in the span: each line's ramp encoded. */
  lemma LinesFinishInSpan(k: Link, lines: seq<Segment>, duration: Time)
    requires Exec(Legacy, k, Each(lines, LineDraw(duration)), []).1
    ensures LinesInSpan(lines)
  {
    var steps := Each(lines, LineDraw(duration));
    ExecComplete(Legacy, k, steps, []);
    forall i | 0 <= i < |lines| ensures LineInSpan(lines[i]) {
      var s := lines[i];
      LinesCalls(lines, duration, i);
      BleachLineCommands(Point(s.x0, s.y0), Point(s.x1, s.y1), duration);
      assert steps[6 * i + 4] == steps[6 * i..6 * (i + 1)][4];
    }
  }

  /**
   * On an open port with a tagged, non-negative duration, a list of lines
   * drawn with BleachLine finishes exactly when every line lies in the span;
   * then every call goes out and is echoed in order, and the run waits the
   * duration once per line.
   */
  lemma LinesRun(k: Link, lines: seq<Segment>, duration: Time)
    requires Usable(k.port)
    requires duration.unit != BareTime && Seconds(duration) >= 0.0
    ensures var steps := Each(lines, LineDraw(duration));
      var r := Exec(Legacy, k, steps, []);
      (r.1 <==> LinesInSpan(lines)) &&
      (r.1 ==> r.0.wire == k.wire + Delivered(k.port.id, steps) &&
               r.0.console == k.console + Echoed(steps) &&
               r.0.elapsed == k.elapsed + Repeated(|lines|, Seconds(duration)))
  {
    var steps := Each(lines, LineDraw(duration));
    if LinesInSpan(lines) {
      LinesRunnable(lines, duration);
      ExecAll(Legacy, k, steps, []);
      LinesDelay(lines, duration);
    }
    if Exec(Legacy, k, steps, []).1 {
      LinesFinishInSpan(k, lines, duration);
    }
  }

  /** BleachFiducial on an open port finishes exactly when all its lines lie in the span. */
  lemma BleachFiducialRun(k: Link, center: Point, markWidth: real, markGapWidth: real, orientation: string, duration: Time)
    requires Usable(k.port)
    requires duration.unit != BareTime && Seconds(duration) >= 0.0
    ensures var lines := FiducialLines(center, markWidth, markGapWidth, orientation);
      var steps := Each(lines, LineDraw(duration));
      var r := Exec(Legacy, k, steps, []);
      (r.1 <==> LinesInSpan(lines)) &&
      (r.1 ==> r.0.wire == k.wire + Delivered(k.port.id, steps) &&
               r.0.elapsed == k.elapsed + Repeated(|lines|, Seconds(duration)))
  {
    LinesRun(k, FiducialLines(center, markWidth, markGapWidth, orientation), duration);
  }

  // ---------------------------------------------------- TestGrid, TestBars

  /** The number of turns of `for i in range(0, n)`. */
  function Turns(n: int): nat { if n > 0 then n else 0 }

  /** A segment between two device points given as integers (Wasatch units). */
  function DeviceSegment(x0: int, y0: int, x1: int, y1: int): Segment
  {
    Segment(x0 as real, y0 as real, x1 as real, y1 as real)
  }

  /**
   * One raw line of TestGrid or TestBars (95-96, 98-99, 119-120): the text
   * "xy_ramp %d %d %d %d" of x0 x1 y0 y1, sent with the default delay and
   * no bounds check, then scan n with the duration.
   */
  function RawDraw(duration: Time): Segment -> seq<Step>
  {
    (s: Segment) => [Step(Ok(Command("xy_ramp", [Trunc(s.x0), Trunc(s.x1), Trunc(s.y0), Trunc(s.y1)])), Default),
                     Step(Ok(ScanNTimes(ScanCount(duration))), duration)]
  }

  /** The two sends of one raw line. */
  method SendRaw(mc: DirectSerial, x0: int, x1: int, y0: int, y1: int, duration: Time) returns (ok: bool)
    modifies mc
    ensures (mc.Snapshot(), ok) == Exec(Legacy, old(mc.Snapshot()), RawDraw(duration)(DeviceSegment(x0, y0, x1, y1)), [])
  {
    assert Trunc(x0 as real) == x0 && Trunc(x1 as real) == x1 && Trunc(y0 as real) == y0 && Trunc(y1 as real) == y1;
    ok := mc.Run([Step(Ok(Command("xy_ramp", [x0, x1, y0, y1])), Default),
                  Step(Ok(ScanNTimes(ScanCount(duration))), duration)]);
  }

  /** One raw line encodes both its sends, and with a tagged, non-negative duration both can sleep. */
  lemma RawDrawRunnable(s: Segment, duration: Time)
    requires duration.unit != BareTime && Seconds(duration) >= 0.0
    ensures Runnable(Legacy, RawDraw(duration)(s))
  {
    var d := RawDraw(duration)(s);
    DefaultSleepsNothing();
    assert d[0].command.Ok? && SleepOk(Legacy, d[0].delay);
    assert d[1].command.Ok? && SleepOk(Legacy, d[1].delay);
    assert |d| == 2;
  }

  /** One raw line waits the duration once: the ramp is sent with the default wait. */
  lemma RawDrawDelay(s: Segment, duration: Time)
    ensures TotalDelay(Legacy, RawDraw(duration)(s)) == Seconds(duration)
  {
    var d := RawDraw(duration)(s);
    TwoStepDelay(Legacy, d[0], d[1]);
    assert d == [d[0], d[1]];
    DefaultSleepsNothing();
  }

  /** A list of raw lines with a tagged, non-negative duration: every call encodes and can sleep. */
  lemma RawLinesRunnable(segs: seq<Segment>, duration: Time)
    requires duration.unit != BareTime && Seconds(duration) >= 0.0
    ensures Runnable(Legacy, Each(segs, RawDraw(duration)))
  {
    forall i | 0 <= i < |segs| ensures Runnable(Legacy, RawDraw(duration)(segs[i])) {
      RawDrawRunnable(segs[i], duration);
    }
    EachRunnable(Legacy, segs, RawDraw(duration));
  }

  /** A list of raw lines waits the duration once per line. */
  lemma RawLinesDelay(segs: seq<Segment>, duration: Time)
    ensures TotalDelay(Legacy, Each(segs, RawDraw(duration))) == Repeated(|segs|, Seconds(duration))
  {
    var draw := RawDraw(duration);
    forall i | 0 <= i < |segs| ensures TotalDelay(Legacy, draw(segs[i])) == Seconds(duration) {
      RawDrawDelay(segs[i], duration);
    }
    EachDelay(Legacy, segs, draw, Seconds(duration));
  }

  /** The four set-up calls encode, sleep for nothing, and can be slept on the legacy interface. */
  lemma SetupRunnable()
    ensures Runnable(Legacy, SetupSteps()) && TotalDelay(Legacy, SetupSteps()) == 0.0
  {
    SetupOk();
    NoWait(SetupSteps());
  }

  /** The set-up calls and then a runnable list of calls: the run finishes and writes them all. */
  lemma RunAfterSetup(k: Link, rest: seq<Step>)
    requires Usable(k.port)
    requires Runnable(Legacy, rest)
    ensures var steps := SetupSteps() + rest;
      var r := Exec(Legacy, k, steps, []);
      r.1 && r.0.wire == k.wire + Delivered(k.port.id, steps) && r.0.console == k.console + Echoed(steps) &&
      r.0.elapsed == k.elapsed + TotalDelay(Legacy, rest)
  {
    SetupRunnable();
    RunnableAppend(Legacy, SetupSteps(), rest);
    ExecAll(Legacy, k, SetupSteps() + rest, []);
    TotalDelayAppend(Legacy, SetupSteps(), rest);
  }

  /** TestGrid's columns (94-96): column c at x = sx + colSpacing·c, from sy to sy + rowSpacing·(rows - 1). */
  function GridColumns(sx: int, sy: int, columns: int, rows: int, colSpacing: int, rowSpacing: int): (segs: seq<Segment>)
    ensures |segs| == Turns(columns)
  {
    seq(Turns(columns), c => DeviceSegment(sx + colSpacing * c, sy, sx + colSpacing * c, sy + rowSpacing * (rows - 1)))
  }

  /** TestGrid's rows (97-99): row r at y = sy + rowSpacing·r, from sx to sx + colSpacing·(columns - 1). */
  function GridRows(sx: int, sy: int, columns: int, rows: int, colSpacing: int, rowSpacing: int): (segs: seq<Segment>)
    ensures |segs| == Turns(rows)
  {
    seq(Turns(rows), r => DeviceSegment(sx, sy + rowSpacing * r, sx + colSpacing * (columns - 1), sy + rowSpacing * r))
  }

  /** GCommand_TestGrid (89-99): the set-up, a raw line per column, then a raw line per row. */
  function TestGridSteps(sx: int, sy: int, columns: int, rows: int, colSpacing: int, rowSpacing: int, duration: Time): seq<Step>
  {
    SetupSteps() + Each(GridColumns(sx, sy, columns, rows, colSpacing, rowSpacing), RawDraw(duration)) +
    Each(GridRows(sx, sy, columns, rows, colSpacing, rowSpacing), RawDraw(duration))
  }

  method TestGrid(mc: DirectSerial, sx: int, sy: int, columns: int, rows: int, colSpacing: int, rowSpacing: int,
                  duration: Time)
    returns (ok: bool)
    modifies mc
    ensures (mc.Snapshot(), ok) == Exec(Legacy, old(mc.Snapshot()),
      TestGridSteps(sx, sy, columns, rows, colSpacing, rowSpacing, duration), [])
  {
    ghost var k0 := mc.Snapshot();
    ghost var cols := Each(GridColumns(sx, sy, columns, rows, colSpacing, rowSpacing), RawDraw(duration));
    ghost var rws := Each(GridRows(sx, sy, columns, rows, colSpacing, rowSpacing), RawDraw(duration));
    ExecAppend(Legacy, k0, SetupSteps() + cols, rws, []);
    ExecAppend(Legacy, k0, SetupSteps(), cols, []);
    ok := mc.Run(SetupSteps());
    if ok {
      ok := GridColumnLines(mc, sx, sy, columns, rows, colSpacing, rowSpacing, duration);
    }
    if ok {
      ok := GridRowLines(mc, sx, sy, columns, rows, colSpacing, rowSpacing, duration);
    }
  }

  /** The column loop (94-96), stopping at the first send that raises. */
  method GridColumnLines(mc: DirectSerial, sx: int, sy: int, columns: int, rows: int, colSpacing: int, rowSpacing: int,
                         duration: Time)
    returns (ok: bool)
    modifies mc
    ensures (mc.Snapshot(), ok) == Exec(Legacy, old(mc.Snapshot()),
      Each(GridColumns(sx, sy, columns, rows, colSpacing, rowSpacing), RawDraw(duration)), [])
  {
    ghost var k0 := mc.Snapshot();
    ghost var segs := GridColumns(sx, sy, columns, rows, colSpacing, rowSpacing);
    assert segs[..0] == [];
    ok := true;
    var colIndex := 0;
    while colIndex < columns
      invariant 0 <= colIndex <= |segs|
      invariant Exec(Legacy, k0, Each(segs[..colIndex], RawDraw(duration)), []) == (mc.Snapshot(), true)
    {
      var x := sx + (colSpacing * colIndex);
      assert segs[colIndex] == DeviceSegment(x, sy, x, sy + (rowSpacing * (rows - 1)));
      ok := SendRaw(mc, x, x, sy, sy + (rowSpacing * (rows - 1)), duration);
      ExecEachNext(Legacy, k0, segs, colIndex, RawDraw(duration), [], mc.Snapshot(), ok);
      if !ok {
        return;
      }
      colIndex := colIndex + 1;
    }
    assert segs[..colIndex] == segs;
  }

  /** The row loop (97-99), stopping at the first send that raises. */
  method GridRowLines(mc: DirectSerial, sx: int, sy: int, columns: int, rows: int, colSpacing: int, rowSpacing: int,
                      duration: Time)
    returns (ok: bool)
    modifies mc
    ensures (mc.Snapshot(), ok) == Exec(Legacy, old(mc.Snapshot()),
      Each(GridRows(sx, sy, columns, rows, colSpacing, rowSpacing), RawDraw(duration)), [])
  {
    ghost var k0 := mc.Snapshot();
    ghost var segs := GridRows(sx, sy, columns, rows, colSpacing, rowSpacing);
    assert segs[..0] == [];
    ok := true;
    var rowIndex := 0;
    while rowIndex < rows
      invariant 0 <= rowIndex <= |segs|
      invariant Exec(Legacy, k0, Each(segs[..rowIndex], RawDraw(duration)), []) == (mc.Snapshot(), true)
    {
      var y := sy + (rowSpacing * rowIndex);
      assert segs[rowIndex] == DeviceSegment(sx, y, sx + (colSpacing * (columns - 1)), y);
      ok := SendRaw(mc, sx, sx + (colSpacing * (columns - 1)), y, y, duration);
      ExecEachNext(Legacy, k0, segs, rowIndex, RawDraw(duration), [], mc.Snapshot(), ok);
      if !ok {
        return;
      }
      rowIndex := rowIndex + 1;
    }
    assert segs[..rowIndex] == segs;
  }

  /**
   * Column c's calls are 4 + 2c and 5 + 2c: "xy_ramp" of x, x, sy and
   * sy + rowSpacing·(rows - 1) with x = sx + colSpacing·c, then the scan
   * with the duration; TestGrid makes 4 + 2·(columns + rows) calls.
   */
  lemma TestGridColumn(sx: int, sy: int, columns: int, rows: int, colSpacing: int, rowSpacing: int, duration: Time, c: nat)
    requires c < Turns(columns)
    ensures var steps := TestGridSteps(sx, sy, columns, rows, colSpacing, rowSpacing, duration);
      var x := sx + colSpacing * c;
      |steps| == 4 + 2 * (Turns(columns) + Turns(rows)) &&
      steps[4 + 2 * c] == Step(Ok(Command("xy_ramp", [x, x, sy, sy + rowSpacing * (rows - 1)])), Default) &&
      steps[5 + 2 * c] == Step(Ok(Command("scan", [ScanCount(duration)])), duration)
  {
    var cs := GridColumns(sx, sy, columns, rows, colSpacing, rowSpacing);
    var rs := GridRows(sx, sy, columns, rows, colSpacing, rowSpacing);
    var draw := RawDraw(duration);
    forall s ensures |draw(s)| == 2 {
    }
    EachAt(cs, draw, 2, c);
    EachLength(rs, draw, 2);
    var steps := TestGridSteps(sx, sy, columns, rows, colSpacing, rowSpacing, duration);
    var x := sx + colSpacing * c;
    assert Trunc(x as real) == x && Trunc(sy as real) == sy;
    assert Trunc((sy + rowSpacing * (rows - 1)) as real) == sy + rowSpacing * (rows - 1);
    assert steps[4 + 2 * c] == Each(cs, draw)[c * 2..(c + 1) * 2][0];
    assert steps[5 + 2 * c] == Each(cs, draw)[c * 2..(c + 1) * 2][1];
  }

  /**
   * Row r's calls follow the columns': "xy_ramp" of sx,
   * sx + colSpacing·(columns - 1), y and y with y = sy + rowSpacing·r, then
   * the scan with the duration.
   */
  lemma TestGridRow(sx: int, sy: int, columns: int, rows: int, colSpacing: int, rowSpacing: int, duration: Time, r: nat)
    requires r < Turns(rows)
    ensures var steps := TestGridSteps(sx, sy, columns, rows, colSpacing, rowSpacing, duration);
      var y := sy + rowSpacing * r;
      var at := 4 + 2 * Turns(columns) + 2 * r;
      |steps| == 4 + 2 * (Turns(columns) + Turns(rows)) &&
      steps[at] == Step(Ok(Command("xy_ramp", [sx, sx + colSpacing * (columns - 1), y, y])), Default) &&
      steps[at + 1] == Step(Ok(Command("scan", [ScanCount(duration)])), duration)
  {
    var cs := GridColumns(sx, sy, columns, rows, colSpacing, rowSpacing);
    var rs := GridRows(sx, sy, columns, rows, colSpacing, rowSpacing);
    var draw := RawDraw(duration);
    forall s ensures |draw(s)| == 2 {
    }
    EachLength(cs, draw, 2);
    EachAt(rs, draw, 2, r);
    var steps := TestGridSteps(sx, sy, columns, rows, colSpacing, rowSpacing, duration);
    var y := sy + rowSpacing * r;
    var at := 4 + 2 * Turns(columns) + 2 * r;
    assert Trunc(y as real) == y && Trunc(sx as real) == sx;
    assert Trunc((sx + colSpacing * (columns - 1)) as real) == sx + colSpacing * (columns - 1);
    assert steps[at] == Each(rs, draw)[r * 2..(r + 1) * 2][0];
    assert steps[at + 1] == Each(rs, draw)[r * 2..(r + 1) * 2][1];
  }

  /**
   * On an open port with a tagged, non-negative duration, TestGrid always
   * finishes: it writes and echoes every call and waits the duration once
   * per column and once per row.  Nothing bounds the coordinates it sends.
   */
  lemma TestGridRun(k: Link, sx: int, sy: int, columns: int, rows: int, colSpacing: int, rowSpacing: int, duration: Time)
    requires Usable(k.port)
    requires duration.unit != BareTime && Seconds(duration) >= 0.0
    ensures var steps := TestGridSteps(sx, sy, columns, rows, colSpacing, rowSpacing, duration);
      var r := Exec(Legacy, k, steps, []);
      r.1 && r.0.wire == k.wire + Delivered(k.port.id, steps) && r.0.console == k.console + Echoed(steps) &&
      r.0.elapsed == k.elapsed + Repeated(Turns(columns) + Turns(rows), Seconds(duration))
  {
    var cs := GridColumns(sx, sy, columns, rows, colSpacing, rowSpacing);
    var rs := GridRows(sx, sy, columns, rows, colSpacing, rowSpacing);
    var a: seq<Step> := Each(cs, RawDraw(duration));
    var b: seq<Step> := Each(rs, RawDraw(duration));
    RawLinesRunnable(cs, duration);
    RawLinesRunnable(rs, duration);
    RawLinesDelay(cs, duration);
    RawLinesDelay(rs, duration);
    RunnableAppend(Legacy, a, b);
    TotalDelayAppend(Legacy, a, b);
    RepeatedSum(|cs|, |rs|, Seconds(duration));
    assert TotalDelay(Legacy, a + b) == Repeated(Turns(columns) + Turns(rows), Seconds(duration));
    assert TestGridSteps(sx, sy, columns, rows, colSpacing, rowSpacing, duration) == SetupSteps() + (a + b);
    RunAfterSetup(k, a + b);
  }

  /**
   * The call in the main script (Wasatch_Main_Script.py:76): a 50-column,
   * 100-row grid from (5000, 5000) makes 304 calls; its first column runs
   * from y = 5000 to 24800, past MAX_Y = 24418, and it is sent all the same.
   */
  lemma TestGridExample()
    ensures var steps := TestGridSteps(5000, 5000, 50, 100, 400, 200, Time(2.0, Second));
      |steps| == 304 &&
      steps[4].command == Ok(Command("xy_ramp", [5000, 5000, 5000, 24800])) &&
      steps[104].command == Ok(Command("xy_ramp", [5000, 24600, 5000, 5000])) &&
      steps[5] == Step(Ok(Command("scan", [200])), Time(2.0, Second)) &&
      24800.0 > SpanCalibration.MaxY
  {
    TestGridColumn(5000, 5000, 50, 100, 400, 200, Time(2.0, Second), 0);
    TestGridRow(5000, 5000, 50, 100, 400, 200, Time(2.0, Second), 0);
    TwoSeconds();
  }

  /** Two seconds take 200 sweeps. */
  lemma TwoSeconds()
    ensures ScanCount(Time(2.0, Second)) == 200
  {
    ScanCountCovers(Time(2.0, Second));
    assert ToSeconds(Time(2.0, Second)) == 2.0;
  }

  /** TestBars' bars (118-120): bar c at x = sx + colSpacing·c, from sy to sy + colLength. */
  function BarColumns(sx: int, sy: int, columns: int, colSpacing: int, colLength: int): (segs: seq<Segment>)
    ensures |segs| == Turns(columns)
  {
    seq(Turns(columns), c => DeviceSegment(sx + colSpacing * c, sy, sx + colSpacing * c, sy + colLength))
  }

  /** GCommand_TestBars (113-120): the set-up, then a raw line per bar. */
  function TestBarsSteps(sx: int, sy: int, columns: int, colSpacing: int, colLength: int, duration: Time): seq<Step>
  {
    SetupSteps() + Each(BarColumns(sx, sy, columns, colSpacing, colLength), RawDraw(duration))
  }

  method TestBars(mc: DirectSerial, sx: int, sy: int, columns: int, colSpacing: int, colLength: int, duration: Time)
    returns (ok: bool)
    modifies mc
    ensures (mc.Snapshot(), ok) == Exec(Legacy, old(mc.Snapshot()), TestBarsSteps(sx, sy, columns, colSpacing, colLength, duration), [])
  {
    ExecAppend(Legacy, mc.Snapshot(), SetupSteps(), Each(BarColumns(sx, sy, columns, colSpacing, colLength), RawDraw(duration)), []);
    ok := mc.Run(SetupSteps());
    if ok {
      ok := BarLines(mc, sx, sy, columns, colSpacing, colLength, duration);
    }
  }

  /** The bar loop (118-120), stopping at the first send that raises. */
  method BarLines(mc: DirectSerial, sx: int, sy: int, columns: int, colSpacing: int, colLength: int, duration: Time)
    returns (ok: bool)
    modifies mc
    ensures (mc.Snapshot(), ok) == Exec(Legacy, old(mc.Snapshot()),
      Each(BarColumns(sx, sy, columns, colSpacing, colLength), RawDraw(duration)), [])
  {
    ghost var k0 := mc.Snapshot();
    ghost var segs := BarColumns(sx, sy, columns, colSpacing, colLength);
    assert segs[..0] == [];
    ok := true;
    var colIndex := 0;
    while colIndex < columns
      invariant 0 <= colIndex <= |segs|
      invariant Exec(Legacy, k0, Each(segs[..colIndex], RawDraw(duration)), []) == (mc.Snapshot(), true)
    {
      var x := sx + (colSpacing * colIndex);
      assert segs[colIndex] == DeviceSegment(x, sy, x, sy + colLength);
      ok := SendRaw(mc, x, x, sy, sy + colLength, duration);
      ExecEachNext(Legacy, k0, segs, colIndex, RawDraw(duration), [], mc.Snapshot(), ok);
      if !ok {
        return;
      }
      colIndex := colIndex + 1;
    }
    assert segs[..colIndex] == segs;
  }

  /**
   * Bar c's calls are 4 + 2c and 5 + 2c: "xy_ramp" of x, x, sy and
   * sy + colLength with x = sx + colSpacing·c, then the scan; TestBars
   * makes 4 + 2·columns calls.
   */
  lemma TestBarsColumn(sx: int, sy: int, columns: int, colSpacing: int, colLength: int, duration: Time, c: nat)
    requires c < Turns(columns)
    ensures var steps := TestBarsSteps(sx, sy, columns, colSpacing, colLength, duration);
      var x := sx + colSpacing * c;
      |steps| == 4 + 2 * Turns(columns) &&
      steps[4 + 2 * c] == Step(Ok(Command("xy_ramp", [x, x, sy, sy + colLength])), Default) &&
      steps[5 + 2 * c] == Step(Ok(Command("scan", [ScanCount(duration)])), duration)
  {
    var cs := BarColumns(sx, sy, columns, colSpacing, colLength);
    var draw := RawDraw(duration);
    forall s ensures |draw(s)| == 2 {
    }
    EachAt(cs, draw, 2, c);
    var steps := TestBarsSteps(sx, sy, columns, colSpacing, colLength, duration);
    var x := sx + colSpacing * c;
    assert Trunc(x as real) == x && Trunc(sy as real) == sy && Trunc((sy + colLength) as real) == sy + colLength;
    assert steps[4 + 2 * c] == Each(cs, draw)[c * 2..(c + 1) * 2][0];
    assert steps[5 + 2 * c] == Each(cs, draw)[c * 2..(c + 1) * 2][1];
  }

  /** On an open port with a tagged, non-negative duration, TestBars finishes and waits the duration once per bar. */
  lemma TestBarsRun(k: Link, sx: int, sy: int, columns: int, colSpacing: int, colLength: int, duration: Time)
    requires Usable(k.port)
    requires duration.unit != BareTime && Seconds(duration) >= 0.0
    ensures var steps := TestBarsSteps(sx, sy, columns, colSpacing, colLength, duration);
      var r := Exec(Legacy, k, steps, []);
      r.1 && r.0.wire == k.wire + Delivered(k.port.id, steps) && r.0.console == k.console + Echoed(steps) &&
      r.0.elapsed == k.elapsed + Repeated(Turns(columns), Seconds(duration))
  {
    var cs := BarColumns(sx, sy, columns, colSpacing, colLength);
    RawLinesRunnable(cs, duration);
    RawLinesDelay(cs, duration);
    RunAfterSetup(k, Each(cs, RawDraw(duration)));
  }

  // ------------------------------------------------------------ BleachGrid

  /** Column c of BleachGrid (142) stands at x = cx + (c - columns/2)·colSpacing. */
  function GridColumnX(center: Point, columns: int, colSpacing: real, c: int): real
  {
    center.x + (c as real - columns as real / 2.0) * colSpacing
  }

  /** Row r (144, corrected) runs at y = cy + (r - rows/2)·rowSpacing. */
  function GridRowY(center: Point, rows: int, rowSpacing: real, r: int): real
  {
    center.y + (r as real - rows as real / 2.0) * rowSpacing
  }

  /** BleachGrid's columns (141-142): each colLength long, from its top end down to its bottom end. */
  function BleachGridColumns(center: Point, columns: int, colSpacing: real, colLength: real): (segs: seq<Segment>)
    ensures |segs| == Turns(columns)
  {
    seq(Turns(columns), c =>
      Segment(GridColumnX(center, columns, colSpacing, c), center.y + colLength / 2.0,
              GridColumnX(center, columns, colSpacing, c), center.y - colLength / 2.0))
  }

  /** BleachGrid's rows (143-144), rowSpacing apart: each rowLength long, from left to right. */
  function BleachGridRows(center: Point, rows: int, rowSpacing: real, rowLength: real): (segs: seq<Segment>)
    ensures |segs| == Turns(rows)
  {
    seq(Turns(rows), r =>
      Segment(center.x - rowLength / 2.0, GridRowY(center, rows, rowSpacing, r),
              center.x + rowLength / 2.0, GridRowY(center, rows, rowSpacing, r)))
  }

  /** The rows as line 144 writes them: y = cy + (r - rows/2), with no rowSpacing. */
  function BleachGridRowsAsWritten(center: Point, rows: int, rowLength: real): (segs: seq<Segment>)
    ensures |segs| == Turns(rows)
  {
    seq(Turns(rows), r =>
      Segment(center.x - rowLength / 2.0, center.y + (r as real - rows as real / 2.0),
              center.x + rowLength / 2.0, center.y + (r as real - rows as real / 2.0)))
  }

  /** GCommand_BleachGrid (136-144): the set-up, then one BleachLine per column, then one per row. */
  function BleachGridSteps(center: Point, columns: int, rows: int, colSpacing: real, rowSpacing: real,
                           colLength: real, rowLength: real, duration: Time): seq<Step>
  {
    SetupSteps() + Each(BleachGridColumns(center, columns, colSpacing, colLength), LineDraw(duration)) +
    Each(BleachGridRows(center, rows, rowSpacing, rowLength), LineDraw(duration))
  }

  method BleachGrid(mc: DirectSerial, center: Point, columns: int, rows: int, colSpacing: real, rowSpacing: real,
                    colLength: real, rowLength: real, duration: Time)
    returns (ok: bool)
    modifies mc
    ensures (mc.Snapshot(), ok) == Exec(Legacy, old(mc.Snapshot()),
      BleachGridSteps(center, columns, rows, colSpacing, rowSpacing, colLength, rowLength, duration), [])
  {
    ghost var k0 := mc.Snapshot();
    ghost var cols := Each(BleachGridColumns(center, columns, colSpacing, colLength), LineDraw(duration));
    ghost var rws := Each(BleachGridRows(center, rows, rowSpacing, rowLength), LineDraw(duration));
    ExecAppend(Legacy, k0, SetupSteps() + cols, rws, []);
    ExecAppend(Legacy, k0, SetupSteps(), cols, []);
    ok := mc.Run(SetupSteps());
    if ok {
      ok := GridColumnBleaches(mc, center, columns, colSpacing, colLength, duration);
    }
    if ok {
      ok := GridRowBleaches(mc, center, rows, rowSpacing, rowLength, duration);
    }
  }

  /** The column loop (141-142), stopping at the first BleachLine that raises. */
  method GridColumnBleaches(mc: DirectSerial, center: Point, columns: int, colSpacing: real, colLength: real, duration: Time)
    returns (ok: bool)
    modifies mc
    ensures (mc.Snapshot(), ok) == Exec(Legacy, old(mc.Snapshot()),
      Each(BleachGridColumns(center, columns, colSpacing, colLength), LineDraw(duration)), [])
  {
    ghost var k0 := mc.Snapshot();
    ghost var segs := BleachGridColumns(center, columns, colSpacing, colLength);
    assert segs[..0] == [];
    ok := true;
    var colIndex := 0;
    while colIndex < columns
      invariant 0 <= colIndex <= |segs|
      invariant Exec(Legacy, k0, Each(segs[..colIndex], LineDraw(duration)), []) == (mc.Snapshot(), true)
    {
      var x := GridColumnX(center, columns, colSpacing, colIndex);
      var line := Segment(x, center.y + colLength / 2.0, x, center.y - colLength / 2.0);
      assert segs[colIndex] == line;
      ok := DrawLine(mc, line, duration);
      ExecEachNext(Legacy, k0, segs, colIndex, LineDraw(duration), [], mc.Snapshot(), ok);
      if !ok {
        return;
      }
      colIndex := colIndex + 1;
    }
    assert segs[..colIndex] == segs;
  }

  /** The row loop (143-144, corrected), stopping at the first BleachLine that raises. */
  method GridRowBleaches(mc: DirectSerial, center: Point, rows: int, rowSpacing: real, rowLength: real, duration: Time)
    returns (ok: bool)
    modifies mc
    ensures (mc.Snapshot(), ok) == Exec(Legacy, old(mc.Snapshot()),
      Each(BleachGridRows(center, rows, rowSpacing, rowLength), LineDraw(duration)), [])
  {
    ghost var k0 := mc.Snapshot();
    ghost var segs := BleachGridRows(center, rows, rowSpacing, rowLength);
    assert segs[..0] == [];
    ok := true;
    var rowIndex := 0;
    while rowIndex < rows
      invariant 0 <= rowIndex <= |segs|
      invariant Exec(Legacy, k0, Each(segs[..rowIndex], LineDraw(duration)), []) == (mc.Snapshot(), true)
    {
      var y := GridRowY(center, rows, rowSpacing, rowIndex);
      var line := Segment(center.x - rowLength / 2.0, y, center.x + rowLength / 2.0, y);
      assert segs[rowIndex] == line;
      ok := DrawLine(mc, line, duration);
      ExecEachNext(Legacy, k0, segs, rowIndex, LineDraw(duration), [], mc.Snapshot(), ok);
      if !ok {
        return;
      }
      rowIndex := rowIndex + 1;
    }
    assert segs[..rowIndex] == segs;
  }

  /**
   * The columns are vertical, colLength long, centred on cy and colSpacing
   * apart, the first at cx - (columns/2)·colSpacing.
   */
  lemma BleachGridColumnGeometry(center: Point, columns: int, colSpacing: real, colLength: real)
    ensures var cs := BleachGridColumns(center, columns, colSpacing, colLength);
      (forall c :: 0 <= c < |cs| ==>
         cs[c].x0 == cs[c].x1 && cs[c].y0 - cs[c].y1 == colLength && cs[c].y0 + cs[c].y1 == 2.0 * center.y) &&
      (forall c :: 0 <= c < |cs| - 1 ==> cs[c + 1].x0 - cs[c].x0 == colSpacing) &&
      (|cs| > 0 ==> cs[0].x0 == center.x - columns as real / 2.0 * colSpacing)
  {
    var cs := BleachGridColumns(center, columns, colSpacing, colLength);
    forall c | 0 <= c < |cs| - 1 ensures cs[c + 1].x0 - cs[c].x0 == colSpacing {
      Spaced(center.x, columns, colSpacing, c);
    }
  }

  /**
   * The rows are horizontal, rowLength long, centred on cx and rowSpacing
   * apart, the first at cy - (rows/2)·rowSpacing.
   */
  lemma BleachGridRowGeometry(center: Point, rows: int, rowSpacing: real, rowLength: real)
    ensures var rs := BleachGridRows(center, rows, rowSpacing, rowLength);
      (forall r :: 0 <= r < |rs| ==>
         rs[r].y0 == rs[r].y1 && rs[r].x1 - rs[r].x0 == rowLength && rs[r].x0 + rs[r].x1 == 2.0 * center.x) &&
      (forall r :: 0 <= r < |rs| - 1 ==> rs[r + 1].y0 - rs[r].y0 == rowSpacing) &&
      (|rs| > 0 ==> rs[0].y0 == center.y - rows as real / 2.0 * rowSpacing)
  {
    var rs := BleachGridRows(center, rows, rowSpacing, rowLength);
    forall r | 0 <= r < |rs| - 1 ensures rs[r + 1].y0 - rs[r].y0 == rowSpacing {
      Spaced(center.y, rows, rowSpacing, r);
    }
  }

  /** Neighbouring positions o + (i - n/2)·s are s apart. */
  lemma Spaced(o: real, n: int, s: real, i: int)
    ensures (o + ((i + 1) as real - n as real / 2.0) * s) - (o + (i as real - n as real / 2.0) * s) == s
  {
    var a := i as real - n as real / 2.0;
    assert (i + 1) as real - n as real / 2.0 == a + 1.0;
    assert (a + 1.0) * s == a * s + s;
  }

  /**
   * The columns are not centred on cx: the first and the last sit half a
   * spacing to the left of symmetric, at cx - (n/2)·s and cx + (n/2 - 1)·s.
   */
  lemma BleachGridOffCentre(center: Point, columns: int, colSpacing: real, colLength: real)
    requires columns > 0
    ensures var cs := BleachGridColumns(center, columns, colSpacing, colLength);
      cs[0].x0 + cs[|cs| - 1].x0 == 2.0 * center.x - colSpacing
  {
    var n := columns as real;
    assert (0.0 - n / 2.0) * colSpacing + (n - 1.0 - n / 2.0) * colSpacing == (n - 1.0 - n) * colSpacing;
  }

  /**
   * As written, the rows are always 1 apart whatever rowSpacing is, and the
   * rows agree with the intended ones exactly when rowSpacing is 1.
   */
  lemma RowSpacingIgnoredAsWritten(center: Point, rows: int, rowSpacing: real, rowLength: real)
    requires rows > 0
    ensures var aw := BleachGridRowsAsWritten(center, rows, rowLength);
      (forall r :: 0 <= r < |aw| - 1 ==> aw[r + 1].y0 - aw[r].y0 == 1.0) &&
      (aw == BleachGridRows(center, rows, rowSpacing, rowLength) <==> rowSpacing == 1.0)
  {
    RowsAsWrittenUnitApart(center, rows, rowLength);
    RowsAsWrittenAgree(center, rows, rowSpacing, rowLength);
  }

  lemma RowsAsWrittenUnitApart(center: Point, rows: int, rowLength: real)
    ensures var aw := BleachGridRowsAsWritten(center, rows, rowLength);
      forall r :: 0 <= r < |aw| - 1 ==> aw[r + 1].y0 - aw[r].y0 == 1.0
  {
    var aw := BleachGridRowsAsWritten(center, rows, rowLength);
    forall r | 0 <= r < |aw| - 1 ensures aw[r + 1].y0 - aw[r].y0 == 1.0 {
      assert (r + 1) as real - rows as real / 2.0 == (r as real - rows as real / 2.0) + 1.0;
    }
  }

  lemma RowsAsWrittenAgree(center: Point, rows: int, rowSpacing: real, rowLength: real)
    requires rows > 0
    ensures BleachGridRowsAsWritten(center, rows, rowLength) == BleachGridRows(center, rows, rowSpacing, rowLength) <==> rowSpacing == 1.0
  {
    var aw := BleachGridRowsAsWritten(center, rows, rowLength);
    var rs := BleachGridRows(center, rows, rowSpacing, rowLength);
    var h := rows as real / 2.0;
    if rowSpacing == 1.0 {
      forall r | 0 <= r < |rs| ensures aw[r] == rs[r] {
        assert GridRowY(center, rows, rowSpacing, r) == center.y + (r as real - h);
      }
    }
    if aw == rs {
      assert aw[0].y0 == center.y + (0.0 - h);
      assert rs[0].y0 == center.y + (0.0 - h) * rowSpacing;
      assert h * (rowSpacing - 1.0) == 0.0;
    }
  }

  /** Two rows a half unit apart, as written, land 1 apart. */
  lemma RowSpacingExample()
    ensures var aw := BleachGridRowsAsWritten(Point(0.0, 0.0), 2, 1.0);
      var rs := BleachGridRows(Point(0.0, 0.0), 2, 0.5, 1.0);
      aw[0].y0 == -1.0 && aw[1].y0 == 0.0 && rs[0].y0 == -0.5 && rs[1].y0 == 0.0
  {
  }

  /** BleachGrid's calls are the set-up, then BleachLine over its columns and rows as one list. */
  lemma BleachGridAsLines(center: Point, columns: int, rows: int, colSpacing: real, rowSpacing: real,
                          colLength: real, rowLength: real, duration: Time)
    ensures BleachGridSteps(center, columns, rows, colSpacing, rowSpacing, colLength, rowLength, duration) ==
      SetupSteps() + Each(BleachGridColumns(center, columns, colSpacing, colLength) +
                          BleachGridRows(center, rows, rowSpacing, rowLength), LineDraw(duration))
  {
    var cs := BleachGridColumns(center, columns, colSpacing, colLength);
    var rs := BleachGridRows(center, rows, rowSpacing, rowLength);
    var draw := LineDraw(duration);
    EachAppend(cs, rs, draw);
    AppendAssociates(SetupSteps(), Each(cs, draw), Each(rs, draw));
  }

  lemma AppendAssociates(s: seq<Step>, a: seq<Step>, b: seq<Step>)
    ensures s + a + b == s + (a + b)
  {
  }

  /**
   * The set-up and then any list of lines: four calls, then six per line in
   * list order, waiting the duration once per line.
   */
  lemma SetupLinesCalls(lines: seq<Segment>, duration: Time, j: nat)
    requires j < |lines|
    ensures var steps := SetupSteps() + Each(lines, LineDraw(duration));
      |steps| == 4 + 6 * |lines| &&
      steps[4 + 6 * j..4 + 6 * (j + 1)] == LineDraw(duration)(lines[j]) &&
      TotalDelay(Legacy, steps) == Repeated(|lines|, Seconds(duration))
  {
    var e: seq<Step> := Each(lines, LineDraw(duration));
    LinesCalls(lines, duration, j);
    assert (SetupSteps() + e)[4 + 6 * j..4 + 6 * (j + 1)] == e[6 * j..6 * (j + 1)];
    SetupRunnable();
    TotalDelayAppend(Legacy, SetupSteps(), e);
  }

  /**
   * On an open port with a tagged, non-negative duration, the set-up and
   * then any list of lines finishes exactly when every line lies in the span.
   */
  lemma SetupLinesRun(k: Link, lines: seq<Segment>, duration: Time)
    requires Usable(k.port)
    requires duration.unit != BareTime && Seconds(duration) >= 0.0
    ensures var steps := SetupSteps() + Each(lines, LineDraw(duration));
      var r := Exec(Legacy, k, steps, []);
      (r.1 <==> LinesInSpan(lines)) &&
      (r.1 ==> r.0.wire == k.wire + Delivered(k.port.id, steps) &&
               r.0.console == k.console + Echoed(steps) &&
               r.0.elapsed == k.elapsed + Repeated(|lines|, Seconds(duration)))
  {
    var e: seq<Step> := Each(lines, LineDraw(duration));
    if LinesInSpan(lines) {
      LinesRunnable(lines, duration);
      LinesDelay(lines, duration);
      RunAfterSetup(k, e);
    }
    if Exec(Legacy, k, SetupSteps() + e, []).1 {
      SetupLinesFinishInSpan(k, lines, duration);
    }
  }

  /** The set-up and then a list of lines, run to the end, had every line in the span. */
  lemma SetupLinesFinishInSpan(k: Link, lines: seq<Segment>, duration: Time)
    requires Exec(Legacy, k, SetupSteps() + Each(lines, LineDraw(duration)), []).1
    ensures LinesInSpan(lines)
  {
    var e: seq<Step> := Each(lines, LineDraw(duration));
    ExecAppend(Legacy, k, SetupSteps(), e, []);
    LinesFinishInSpan(Exec(Legacy, k, SetupSteps(), []).0, lines, duration);
  }

  /**
   * BleachGrid makes the four set-up calls, then six per line, columns
   * first: calls 4 + 6j .. 9 + 6j are BleachLine over line j, and the grid
   * waits the duration once per line.
   */
  lemma BleachGridCalls(center: Point, columns: int, rows: int, colSpacing: real, rowSpacing: real,
                        colLength: real, rowLength: real, duration: Time, j: nat)
    requires j < Turns(columns) + Turns(rows)
    ensures var lines := BleachGridColumns(center, columns, colSpacing, colLength) +
                         BleachGridRows(center, rows, rowSpacing, rowLength);
      var steps := BleachGridSteps(center, columns, rows, colSpacing, rowSpacing, colLength, rowLength, duration);
      |steps| == 4 + 6 * |lines| &&
      steps[4 + 6 * j..4 + 6 * (j + 1)] == LineDraw(duration)(lines[j]) &&
      TotalDelay(Legacy, steps) == Repeated(|lines|, Seconds(duration))
  {
    BleachGridAsLines(center, columns, rows, colSpacing, rowSpacing, colLength, rowLength, duration);
    SetupLinesCalls(BleachGridColumns(center, columns, colSpacing, colLength) +
                    BleachGridRows(center, rows, rowSpacing, rowLength), duration, j);
  }

  /**
   * On an open port with a tagged, non-negative duration, BleachGrid
   * finishes exactly when every column and row lies in the span; then every
   * call goes out in order and the grid waits the duration once per line.
   */
  lemma BleachGridRun(k: Link, center: Point, columns: int, rows: int, colSpacing: real, rowSpacing: real,
                      colLength: real, rowLength: real, duration: Time)
    requires Usable(k.port)
    requires duration.unit != BareTime && Seconds(duration) >= 0.0
    ensures var lines := BleachGridColumns(center, columns, colSpacing, colLength) +
                         BleachGridRows(center, rows, rowSpacing, rowLength);
      var steps := BleachGridSteps(center, columns, rows, colSpacing, rowSpacing, colLength, rowLength, duration);
      var r := Exec(Legacy, k, steps, []);
      (r.1 <==> LinesInSpan(lines)) &&
      (r.1 ==> r.0.wire == k.wire + Delivered(k.port.id, steps) &&
               r.0.console == k.console + Echoed(steps) &&
               r.0.elapsed == k.elapsed + Repeated(|lines|, Seconds(duration)))
  {
    var lines := BleachGridColumns(center, columns, colSpacing, colLength) + BleachGridRows(center, rows, rowSpacing, rowLength);
    BleachGridAsLines(center, columns, rows, colSpacing, rowSpacing, colLength, rowLength, duration);
    SetupLinesRun(k, lines, duration);
  }

  // --------------------------------------------------------- 3DVolumetric

  /**
   * GCommand_3DVolumetric (157-168): the A-scan count, the B-scan count plus
   * the four the Wasatch software adds, the ramp over the scan's corners,
   * then scan 0 (run until stopped); every send takes the default delay.
   */
  function VolumetricSteps(center: Point, scanWidth: real, scanHeight: real, aScans: int, bScans: int): seq<Step>
  {
    Series([Ok(ScanAScans(Some(aScans as real))), ScanBScans(Some((bScans + 4) as real)),
            Ramp(Point(center.x - scanWidth / 2.0, center.y - scanHeight / 2.0),
                 Point(center.x + scanWidth / 2.0, center.y + scanHeight / 2.0))],
           Ok(ScanNTimes(0)), Default, Default)
  }

  method Volumetric3D(mc: DirectSerial, center: Point, scanWidth: real, scanHeight: real,
                      aScans: int := 1024, bScans: int := 1024)
    returns (ok: bool)
    modifies mc
    ensures (mc.Snapshot(), ok) == Exec(Legacy, old(mc.Snapshot()), VolumetricSteps(center, scanWidth, scanHeight, aScans, bScans), [])
  {
    var boundXStart := center.x - (scanWidth / 2.0);
    var boundXStop := center.x + (scanWidth / 2.0);
    var boundYStart := center.y - (scanHeight / 2.0);
    var boundYStop := center.y + (scanHeight / 2.0);
    var upperLeftCorner := Point(boundXStart, boundYStart);
    var lowerRightCorner := Point(boundXStop, boundYStop);
    ok := mc.Run(Series([Ok(ScanAScans(Some(aScans as real))), ScanBScans(Some((bScans + 4) as real)),
                         Ramp(upperLeftCorner, lowerRightCorner)],
                        Ok(ScanNTimes(0)), Default, Default));
  }

  /** The sent B-scan count encodes when it is even and in 0 ..= 65534, that is, bScans even in -4 ..= 65530. */
  predicate BScansOk(bScans: int)
  {
    bScans % 2 == 0 && -4 <= bScans <= 65530
  }

  /**
   * The volumetric calls: "a_scans aScans", "b_scans bScans+4" (encoding
   * exactly when BScansOk), the ramp over the corners, then "scan 0".
   */
  lemma VolumetricCommands(center: Point, scanWidth: real, scanHeight: real, aScans: int, bScans: int)
    ensures var steps := VolumetricSteps(center, scanWidth, scanHeight, aScans, bScans);
      var ul := Point(center.x - scanWidth / 2.0, center.y - scanHeight / 2.0);
      var lr := Point(center.x + scanWidth / 2.0, center.y + scanHeight / 2.0);
      |steps| == 4 &&
      steps[0] == Step(Ok(Command("a_scans", [aScans])), Default) &&
      (steps[1].command.Ok? <==> BScansOk(bScans)) &&
      (BScansOk(bScans) ==> steps[1] == Step(Ok(Command("b_scans", [bScans + 4])), Default)) &&
      steps[2] == Step(Ramp(ul, lr), Default) &&
      steps[3] == Step(Ok(Command("scan", [0])), Default)
  {
    assert Trunc(aScans as real) == aScans && Trunc((bScans + 4) as real) == bScans + 4;
  }

  /**
   * On an open port the volumetric scan finishes exactly when the B-scan
   * count encodes and the corners lie in the span; then its four lines go
   * out in order and no time passes.
   */
  lemma VolumetricRun(k: Link, center: Point, scanWidth: real, scanHeight: real, aScans: int, bScans: int)
    requires Usable(k.port)
    ensures var steps := VolumetricSteps(center, scanWidth, scanHeight, aScans, bScans);
      var ul := Point(center.x - scanWidth / 2.0, center.y - scanHeight / 2.0);
      var lr := Point(center.x + scanWidth / 2.0, center.y + scanHeight / 2.0);
      var r := Exec(Legacy, k, steps, []);
      (r.1 <==> BScansOk(bScans) && RampInBounds(ul, lr)) &&
      (r.1 ==> r.0.wire == k.wire + Delivered(k.port.id, steps) &&
               r.0.console == k.console + Echoed(steps) &&
               r.0.elapsed == k.elapsed)
  {
    var ul := Point(center.x - scanWidth / 2.0, center.y - scanHeight / 2.0);
    var lr := Point(center.x + scanWidth / 2.0, center.y + scanHeight / 2.0);
    var setup := [Ok(ScanAScans(Some(aScans as real))), ScanBScans(Some((bScans + 4) as real)), Ramp(ul, lr)];
    DefaultSleepsNothing();
    SeriesRun(Legacy, k, setup, Ok(ScanNTimes(0)), Default, Default, []);
    BScansEncodes(bScans);
    assert AllOk(setup) <==> setup[1].Ok? && setup[2].Ok?;
  }

  lemma BScansEncodes(bScans: int)
    ensures ScanBScans(Some((bScans + 4) as real)).Ok? <==> BScansOk(bScans)
  {
    assert Trunc((bScans + 4) as real) == bScans + 4;
  }

  /**
   * The defaults, centred with a 1 mm half-width each way: a_scans 1024,
   * b_scans 1028 and the ramp 13461 17651 11862 16047 over one repeat.
   */
  lemma VolumetricExample()
    ensures var steps := VolumetricSteps(Point(0.0, 0.0), 2.0, 2.0, 1024, 1024);
      steps[0].command == Ok(Command("a_scans", [1024])) &&
      steps[1].command == Ok(Command("b_scans", [1028])) &&
      steps[2].command == Ok(Command("xy_ramp", [13461, 17651, 11862, 16047, 1]))
  {
    VolumetricCommands(Point(0.0, 0.0), 2.0, 2.0, 1024, 1024);
    SpanPosition(-1.0);
    SpanPosition(1.0);
    assert Trunc(13461.4) == 13461 && Trunc(17651.6) == 17651;
    assert Trunc(11862.4) == 11862 && Trunc(16047.6) == 16047;
  }

  /** GCommand_3DVolumetric as written: the ramp over the corners through the as-written encoder. */
  function VolumetricStepsAsWritten(center: Point, scanWidth: real, scanHeight: real, aScans: int, bScans: int): seq<Step>
  {
    Series([Ok(ScanAScans(Some(aScans as real))), ScanBScans(Some((bScans + 4) as real)),
            RampAsWritten(Point(center.x - scanWidth / 2.0, center.y - scanHeight / 2.0),
                          Point(center.x + scanWidth / 2.0, center.y + scanHeight / 2.0))],
           Ok(ScanNTimes(0)), Default, Default)
  }

  /**
   * As written, on an open port the volumetric scan finishes exactly when
   * the B-scan count encodes, wherever the corners lie; then its four lines
   * go out in order and no time passes.
   */
  lemma VolumetricRunAsWritten(k: Link, center: Point, scanWidth: real, scanHeight: real, aScans: int, bScans: int)
    requires Usable(k.port)
    ensures var steps := VolumetricStepsAsWritten(center, scanWidth, scanHeight, aScans, bScans);
      var r := Exec(Legacy, k, steps, []);
      (r.1 <==> BScansOk(bScans)) &&
      (r.1 ==> r.0.wire == k.wire + Delivered(k.port.id, steps) &&
               r.0.console == k.console + Echoed(steps) &&
               r.0.elapsed == k.elapsed)
  {
    var ul := Point(center.x - scanWidth / 2.0, center.y - scanHeight / 2.0);
    var lr := Point(center.x + scanWidth / 2.0, center.y + scanHeight / 2.0);
    var setup := [Ok(ScanAScans(Some(aScans as real))), ScanBScans(Some((bScans + 4) as real)), RampAsWritten(ul, lr)];
    DefaultSleepsNothing();
    SeriesRun(Legacy, k, setup, Ok(ScanNTimes(0)), Default, Default, []);
    BScansEncodes(bScans);
    assert AllOk(setup) <==> setup[1].Ok?;
  }

  /**
   * As written, the defaults centred with a 1 mm half-width each way send
   * the ramp 17651 17651 16047 16047: both X ends at +1 mm, both Y ends at
   * +1 mm.
   */
  lemma VolumetricExampleAsWritten()
    ensures VolumetricStepsAsWritten(Point(0.0, 0.0), 2.0, 2.0, 1024, 1024)[2].command ==
      Ok(Command("xy_ramp", [17651, 17651, 16047, 16047, 1]))
  {
    var r := RampAsWritten(Point(-1.0, -1.0), Point(1.0, 1.0));
    assert 15556.5 - (-1.0) * 2095.1 == 17651.6 && 13955.0 - (-1.0) * 2092.6 == 16047.6;
    assert Trunc(17651.6) == 17651 && Trunc(16047.6) == 16047;
  }

  // ------------------------------------------------- 3DVolumetric_Precise

  /** What the precise scan prints when verbose (193-197): the counts the user must enter by hand. */
  function Instructions(pixelsWide: int, pixelsTall: int): seq<string>
  {
    ["GCommand 3DVolumetric Precise, User action required.",
     "In the OCT Volume tab:",
     "1). Set A-scans to " + IntToString(pixelsWide),
     "2). Set B-scans to " + IntToString(pixelsTall)]
  }

  /**
   * GCommand_3DVolumetric_Precise (185-202): the volumetric scan over
   * pixelsWide pixels of pixelWidth by pixelsTall pixels of pixelHeight,
   * with pixelsWide A-scans and pixelsTall B-scans.  When verbose, the
   * instructions reach the console before the first send.
   */
  method Volumetric3DPrecise(mc: DirectSerial, center: Point, pixelWidth: real, pixelHeight: real,
                             pixelsWide: int, pixelsTall: int, verbose: bool)
    returns (ok: bool)
    modifies mc
    ensures var k := old(mc.Snapshot());
      (mc.Snapshot(), ok) == Exec(Legacy, k.(console := k.console + (if verbose then Instructions(pixelsWide, pixelsTall) else [])),
        VolumetricSteps(center, pixelWidth * pixelsWide as real, pixelHeight * pixelsTall as real, pixelsWide, pixelsTall), [])
  {
    var scanWidth := pixelWidth * pixelsWide as real;
    var scanHeight := pixelHeight * pixelsTall as real;
    var boundXStart := center.x - scanWidth / 2.0;
    var boundXStop := center.x + scanWidth / 2.0;
    var boundYStart := center.y - scanHeight / 2.0;
    var boundYStop := center.y + scanHeight / 2.0;
    var upperLeftCorner := Point(boundXStart, boundYStart);
    var lowerRightCorner := Point(boundXStop, boundYStop);
    var steps := Series([Ok(ScanAScans(Some(pixelsWide as real))), ScanBScans(Some((pixelsTall + 4) as real)),
                         Ramp(upperLeftCorner, lowerRightCorner)],
                        Ok(ScanNTimes(0)), Default, Default);
    assert steps == VolumetricSteps(center, scanWidth, scanHeight, pixelsWide, pixelsTall);
    ghost var k0 := mc.Snapshot();
    ghost var told := if verbose then Instructions(pixelsWide, pixelsTall) else [];
    if verbose {
      mc.console := mc.console + Instructions(pixelsWide, pixelsTall);
    }
    assert mc.Snapshot() == k0.(console := k0.console + told);
    ok := mc.Run(steps);
  }

  /**
   * The counts the user is told to enter read back as pixelsWide and
   * pixelsTall; the interface is sent a_scans pixelsWide and, when it
   * encodes, b_scans pixelsTall + 4, the four the Wasatch software adds.
   */
  lemma PreciseInstructionsAgree(center: Point, pixelWidth: real, pixelHeight: real, pixelsWide: int, pixelsTall: int)
    ensures var told := Instructions(pixelsWide, pixelsTall);
      var steps := VolumetricSteps(center, pixelWidth * pixelsWide as real, pixelHeight * pixelsTall as real, pixelsWide, pixelsTall);
      ParseField(told[2][|"1). Set A-scans to "|..]) == Dec(pixelsWide) &&
      ParseField(told[3][|"2). Set B-scans to "|..]) == Dec(pixelsTall) &&
      steps[0].command == Ok(Command("a_scans", [pixelsWide])) &&
      (steps[1].command.Ok? ==> steps[1].command == Ok(Command("b_scans", [pixelsTall + 4])))
  {
    var told := Instructions(pixelsWide, pixelsTall);
    assert told[2][|"1). Set A-scans to "|..] == IntToString(pixelsWide);
    assert told[3][|"2). Set B-scans to "|..] == IntToString(pixelsTall);
    ParseDec(pixelsWide);
    ParseDec(pixelsTall);
    VolumetricCommands(center, pixelWidth * pixelsWide as real, pixelHeight * pixelsTall as real, pixelsWide, pixelsTall);
  }
}
