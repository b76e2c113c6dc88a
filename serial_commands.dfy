/**
 * The command encoders of WasatchWritter/Code/Wasatch_Serial_Commands.py.
 * Each returns the line for one scanner primitive, as the WireFormat.Line
 * of its keyword and fields, or Err where the source raises ValueError.
 * The text the source builds with "%s %d ..." % (...) is WireFormat.Render
 * of that line, and WireFormat.ParseRender proves the text reads back as
 * the same line.  An optional argument left at its default
 * ("default_value") is None, and the encoder then returns its bare query
 * keyword.
 *
 * The source has several name and syntax errors; the model follows the
 * evident intent at each:
 *   line 141, 143: `servo` is the `output` argument;
 *   line 185: `isInstance` is `isinstance`;
 *   line 264: the unbalanced parenthesis is dropped;
 *   line 316: `WConvert_Seconds` is `WConvert_ToSeconds`;
 *   line 343: the stray parenthesis is dropped;
 *   line 393, 835: the missing colons are supplied;
 *   line 457-458: `delayCount` is the `delay` argument;
 *   line 580-584: the undefined `flags` is a trailing flags argument;
 *   line 832: the default `true` is `True`.
 * Arguments are taken at the types the callers use (integers, reals, unit
 * tagged quantities); Python's isinstance checks for other types vanish.
 */
module SerialCommands {
  import opened Wrappers
  import opened Units
  import opened Rounding
  import opened WireFormat
  import opened Calibration

  // ------------------------------------------------------------- helpers

  /** The messages of the exceptions the encoders raise. */
  const ValuePrefix := "Serial Error: Requested Wasatch "
  const ValueSuffix := " value is invalid."
  const MotorStateInvalid := "Serial Error: Requested Wasatch motor state is invalid."
  const MotorInvalid := "Serial Error: Requested Wasatch motor is invalid."
  const EepromInvalid := "Serial Error: Requested Wasatch EEPROM write location is invalid."
  const SweepsInvalid := "Serial Error: Requested Wasatch minor sweeps per major sweep is invalid."
  const CoordinatesInvalid := "Serial Error: Requested Wasatch coordinates are invalid."
  const MotorSettingInvalid := "Serial Error: Requested Wasatch motor setting is invalid."
  const MotorDirectionInvalid := "Serial Error: Requested Wasatch motor or direction is invalid."

  /** An encoder with an optional integer argument: no argument queries, a value in lo..hi sets. */
  function Setting(keyword: string, value: Option<int>, lo: int, hi: int): (r: Result<Line>)
    ensures r.Ok? <==> value.None? || lo <= value.value <= hi
    ensures r.Ok? && value.None? ==> r.value == Command(keyword, [])
    ensures r.Ok? && value.Some? ==> r.value == Command(keyword, [value.value])
  {
    match value
    case None => Ok(Command(keyword, []))
    case Some(v) =>
      if lo <= v <= hi then Ok(Command(keyword, [v]))
      else Err(ValuePrefix + keyword + ValueSuffix)
  }

  /** The largest value of the 16-bit sweep counters, as the encoders document it. */
  const MaxCount := 65535

  // ------------------------------------------------------- galvo commands

  function Version(): Line { Command("ver", []) }

  function Reset(): Line { Command("reset", []) }

  function FirmwareUpdate(): Line { Command("dfu", []) }

  function Ping(): Line { Command("ping", []) }

  /** Liquid-lens focus voltage: 0..4095. */
  function Focus(value: Option<int>): (r: Result<Line>)
    ensures r.Ok? <==> value.None? || 0 <= value.value <= 4095
    ensures r.Ok? && value.None? ==> r.value == Command("focus", [])
    ensures r.Ok? && value.Some? ==> r.value == Command("focus", [value.value])
  {
    Setting("focus", value, 0, 4095)
  }

  /** Liquid-lens foci setting: 0..255. */
  function Foci(value: Option<int>): (r: Result<Line>)
    ensures r.Ok? <==> value.None? || 0 <= value.value <= 255
    ensures r.Ok? && value.None? ==> r.value == Command("foci", [])
    ensures r.Ok? && value.Some? ==> r.value == Command("foci", [value.value])
  {
    Setting("foci", value, 0, 255)
  }

  /** Output 1 or 2: no value reads it, a non-negative value sets it. */
  function Toggle(output: int, value: Option<int>): (r: Result<Line>)
    ensures r.Ok? <==> (output == 1 || output == 2) && (value.None? || value.value >= 0)
    ensures r.Ok? && value.None? ==> r.value == Command(if output == 1 then "out1" else "out2", [])
    ensures r.Ok? && value.Some? ==> r.value == Command(if output == 1 then "out1" else "out2", [value.value])
  {
    if output == 1 || output == 2 then
      var keyword := if output == 1 then "out1" else "out2";
      match value
      case None => Ok(Command(keyword, []))
      case Some(v) =>
        if v >= 0 then Ok(Command(keyword, [v]))
        else Err(MotorStateInvalid)
    else Err(MotorInvalid)
  }

  /** Reads the EEPROM page at an address; every integer address is accepted. */
  function ReadEEPROM(address: int): Line
  {
    Command("eer", [address])
  }

  /** Writes a byte: the value is sent as Python's hex() writes it, and must not exceed 255. */
  function WriteEEPROM(address: int, value: int): (r: Result<Line>)
    ensures r.Ok? <==> value <= 255
    ensures r.Ok? ==> r.value == Line("eew", [Dec(address), Hex(value)])
  {
    if value <= 255 then Ok(Line("eew", [Dec(address), Hex(value)]))
    else Err(EepromInvalid)
  }

  // ------------------------------------------------------- sweep commands

  /** Triggers per minor sweep: int() of the argument; no range is checked. */
  function ScanAScans(numScans: Option<real>): (l: Line)
    ensures numScans.None? ==> l == Command("a_scans", [])
    ensures numScans.Some? ==> l == Command("a_scans", [Trunc(numScans.value)])
  {
    match numScans
    case None => Command("a_scans", [])
    case Some(n) => Command("a_scans", [Trunc(n)])
  }

  /** Minor sweeps per major sweep: int() of the argument, even and within 0..65534. */
  function ScanBScans(numScans: Option<real>): (r: Result<Line>)
    ensures r.Ok? <==> numScans.None? || (Trunc(numScans.value) % 2 == 0 && 0 <= Trunc(numScans.value) <= 65534)
    ensures r.Ok? && numScans.None? ==> r.value == Command("b_scans", [])
    ensures r.Ok? && numScans.Some? ==> r.value == Command("b_scans", [Trunc(numScans.value)])
  {
    match numScans
    case None => Ok(Command("b_scans", []))
    case Some(x) =>
      var n := Trunc(x);
      if n % 2 == 0 && 0 <= n <= 65534 then Ok(Command("b_scans", [n]))
      else Err(SweepsInvalid)
  }

  /** Delay between pulses: the duration in whole microseconds (int() truncates), within 3..65535. */
  function ScanPulseDelay(duration: Option<Time>): (r: Result<Line>)
    ensures r.Ok? <==> duration.None? || 3 <= Trunc(Microseconds(duration.value)) <= MaxCount
    ensures r.Ok? && duration.None? ==> r.value == Command("delay", [])
    ensures r.Ok? && duration.Some? ==> r.value == Command("delay", [Trunc(Microseconds(duration.value))])
  {
    match duration
    case None => Ok(Command("delay", []))
    case Some(t) => Setting("delay", Some(Trunc(Microseconds(t))), 3, MaxCount)
  }

  /** Pulse duration: the duration rounded to whole microseconds, within 0..65535. */
  function ScanPulseDuration(duration: Option<Time>): (r: Result<Line>)
    ensures r.Ok? <==> duration.None? || 0 <= RoundHalfEven(Microseconds(duration.value)) <= MaxCount
    ensures r.Ok? && duration.None? ==> r.value == Command("pulse", [])
    ensures r.Ok? && duration.Some? ==> r.value == Command("pulse", [RoundHalfEven(Microseconds(duration.value))])
  {
    match duration
    case None => Ok(Command("pulse", []))
    case Some(t) => Setting("pulse", Some(RoundHalfEven(Microseconds(t))), 0, MaxCount)
  }

  /** The pulse-duration encoder as written: its upper bound literal is 605535. */
  function ScanPulseDurationAsWritten(duration: Option<Time>): (r: Result<Line>)
    ensures r.Ok? <==> duration.None? || 0 <= RoundHalfEven(Microseconds(duration.value)) <= 605535
    ensures r.Ok? && duration.Some? ==> r.value == Command("pulse", [RoundHalfEven(Microseconds(duration.value))])
  {
    match duration
    case None => Ok(Command("pulse", []))
    case Some(t) => Setting("pulse", Some(RoundHalfEven(Microseconds(t))), 0, 605535)
  }

  /** Return-sweep period: the duration rounded to whole microseconds, within 0..255. */
  function ScanReturnSetDuration(duration: Option<Time>): (r: Result<Line>)
    ensures r.Ok? <==> duration.None? || 0 <= RoundHalfEven(Microseconds(duration.value)) <= 255
    ensures r.Ok? && duration.None? ==> r.value == Command("t_ret", [])
    ensures r.Ok? && duration.Some? ==> r.value == Command("t_ret", [RoundHalfEven(Microseconds(duration.value))])
  {
    match duration
    case None => Ok(Command("t_ret", []))
    case Some(t) => Setting("t_ret", Some(RoundHalfEven(Microseconds(t))), 0, 255)
  }

  /**
   * The 16-bit counters (A_div, Phase, a_hold, b_hold, trdelay): a value is
   * accepted within 0..65535, the range each encoder documents.
   */
  function Count(keyword: string, value: Option<int>): (r: Result<Line>)
    ensures r.Ok? <==> value.None? || 0 <= value.value <= MaxCount
    ensures r.Ok? && value.None? ==> r.value == Command(keyword, [])
    ensures r.Ok? && value.Some? ==> r.value == Command(keyword, [value.value])
  {
    Setting(keyword, value, 0, MaxCount)
  }

  /** The same counters as written: every upper bound literal is 605535. */
  function CountAsWritten(keyword: string, value: Option<int>): (r: Result<Line>)
    ensures r.Ok? <==> value.None? || 0 <= value.value <= 605535
    ensures r.Ok? && value.Some? ==> r.value == Command(keyword, [value.value])
  {
    Setting(keyword, value, 0, 605535)
  }

  function ScanReturnClockDivider(factor: Option<int>): (r: Result<Line>)
    ensures r.Ok? <==> factor.None? || 0 <= factor.value <= MaxCount
    ensures r.Ok? && factor.Some? ==> r.value == Command("A_div", [factor.value])
  {
    Count("A_div", factor)
  }

  function ScanPhaseShift(offset: Option<int>): (r: Result<Line>)
    ensures r.Ok? <==> offset.None? || 0 <= offset.value <= MaxCount
    ensures r.Ok? && offset.Some? ==> r.value == Command("Phase", [offset.value])
  {
    Count("Phase", offset)
  }

  /** Return-sweep triggers: true is 1, false is 0. */
  function ScanReturnTrigger(enable: Option<bool>): (l: Line)
    ensures enable.None? ==> l == Command("trigger", [])
    ensures enable == Some(true) ==> l == Command("trigger", [1])
    ensures enable == Some(false) ==> l == Command("trigger", [0])
  {
    match enable
    case None => Command("trigger", [])
    case Some(e) => Command("trigger", [if e then 1 else 0])
  }

  function ScanATriggerGap(delayCount: Option<int>): (r: Result<Line>)
    ensures r.Ok? <==> delayCount.None? || 0 <= delayCount.value <= MaxCount
    ensures r.Ok? && delayCount.Some? ==> r.value == Command("a_hold", [delayCount.value])
  {
    Count("a_hold", delayCount)
  }

  function ScanBTriggerGap(delayCount: Option<int>): (r: Result<Line>)
    ensures r.Ok? <==> delayCount.None? || 0 <= delayCount.value <= MaxCount
    ensures r.Ok? && delayCount.Some? ==> r.value == Command("b_hold", [delayCount.value])
  {
    Count("b_hold", delayCount)
  }

  function ScanTriggerDelay(delay: Option<int>): (r: Result<Line>)
    ensures r.Ok? <==> delay.None? || 0 <= delay.value <= MaxCount
    ensures r.Ok? && delay.Some? ==> r.value == Command("trdelay", [delay.value])
  {
    Count("trdelay", delay)
  }

  /** Trigger-delay mode: only 0 and 1 are accepted. */
  function ScanTriggerDelayEnable(enable: Option<int>): (r: Result<Line>)
    ensures r.Ok? <==> enable.None? || enable.value == 0 || enable.value == 1
    ensures r.Ok? && enable.Some? ==> r.value == Command("trdmode", [enable.value])
  {
    Setting("trdmode", enable, 0, 1)
  }

  // -------------------------------------------------------------- ramps

  /** Both ends of a ramp along X, as device coordinates, when they convert. */
  predicate XRampInBounds(p: Profile, startX: Length, stopX: Length, flags: Flags)
  {
    XPosition(p, startX, flags).Some? && XPosition(p, stopX, flags).Some? &&
    InX(p, XPosition(p, startX, flags).value) && InX(p, XPosition(p, stopX, flags).value)
  }

  predicate YRampInBounds(p: Profile, startY: Length, stopY: Length, flags: Flags)
  {
    YPosition(p, startY, flags).Some? && YPosition(p, stopY, flags).Some? &&
    InY(p, YPosition(p, startY, flags).value) && InY(p, YPosition(p, stopY, flags).value)
  }

  /**
   * An X ramp between two offsets from the centre.  Each end is the centre
   * plus the converted offset; "%d" truncates it; both ends must lie in
   * [MIN_X, MAX_X].  (The source subtracts the start offset: see
   * ScanXRampAsWritten.)
   */
  function ScanXRamp(p: Profile, startX: Length, stopX: Length, bRepeats: int, flags: Flags): (r: Result<Line>)
    ensures r.Ok? <==> XRampInBounds(p, startX, stopX, flags)
    ensures r.Ok? ==> r.value == Command("xramp",
      [Trunc(XPosition(p, startX, flags).value), Trunc(XPosition(p, stopX, flags).value), bRepeats])
  {
    if XRampInBounds(p, startX, stopX, flags) then
      Ok(Command("xramp", [Trunc(XPosition(p, startX, flags).value), Trunc(XPosition(p, stopX, flags).value), bRepeats]))
    else Err(CoordinatesInvalid)
  }

  function ScanYRamp(p: Profile, startY: Length, stopY: Length, bRepeats: int, flags: Flags): (r: Result<Line>)
    ensures r.Ok? <==> YRampInBounds(p, startY, stopY, flags)
    ensures r.Ok? ==> r.value == Command("yramp",
      [Trunc(YPosition(p, startY, flags).value), Trunc(YPosition(p, stopY, flags).value), bRepeats])
  {
    if YRampInBounds(p, startY, stopY, flags) then
      Ok(Command("yramp", [Trunc(YPosition(p, startY, flags).value), Trunc(YPosition(p, stopY, flags).value), bRepeats]))
    else Err(CoordinatesInvalid)
  }

  /**
   * A rectangle (or a line) between two corners; the fields go out in the
   * order xStart xStop yStart yStop bRepeats, and all four coordinates must
   * lie within the bounds.
   */
  function ScanXYRamp(p: Profile, startX: Length, startY: Length, stopX: Length, stopY: Length, bRepeats: int, flags: Flags): (r: Result<Line>)
    ensures r.Ok? <==> XRampInBounds(p, startX, stopX, flags) && YRampInBounds(p, startY, stopY, flags)
    ensures r.Ok? ==> r.value == Command("xy_ramp",
      [Trunc(XPosition(p, startX, flags).value), Trunc(XPosition(p, stopX, flags).value),
       Trunc(YPosition(p, startY, flags).value), Trunc(YPosition(p, stopY, flags).value), bRepeats])
  {
    if XRampInBounds(p, startX, stopX, flags) && YRampInBounds(p, startY, stopY, flags) then
      Ok(Command("xy_ramp",
        [Trunc(XPosition(p, startX, flags).value), Trunc(XPosition(p, stopX, flags).value),
         Trunc(YPosition(p, startY, flags).value), Trunc(YPosition(p, stopY, flags).value), bRepeats]))
    else Err(CoordinatesInvalid)
  }

  // ------------------------------------------------------ ramps as written

  /**
   * The conversion a ramp performs as written: the ramp passes its flags on
   * as one tuple, so the conversion never sees "wasatchUnits" among them.
   */
  function ConvertedAsWritten(x: Length, unitsPerMm: real, flags: Flags): (r: Option<real>)
    ensures r == ToWasatchUnits(x, unitsPerMm, [])
  {
    ToWasatchUnits(x, unitsPerMm, [])
  }

  /** The start coordinate as written: the centre minus the converted offset. */
  function StartAsWritten(center: real, x: Length, unitsPerMm: real, flags: Flags): Option<real>
  {
    match ConvertedAsWritten(x, unitsPerMm, flags)
    case None => None
    case Some(v) => Some(center - v)
  }

  function StopAsWritten(center: real, x: Length, unitsPerMm: real, flags: Flags): Option<real>
  {
    match ConvertedAsWritten(x, unitsPerMm, flags)
    case None => None
    case Some(v) => Some(center + v)
  }

  /** ScanXRamp as written: start = CENTER_X - conv(start), stop = CENTER_X + conv(stop), flags lost. */
  function ScanXRampAsWritten(p: Profile, startX: Length, stopX: Length, bRepeats: int, flags: Flags): (r: Result<Line>)
    ensures r.Ok? ==> r.value == Command("xramp",
      [Trunc(StartAsWritten(CenterX(p), startX, p.unitsPerMmX, flags).value),
       Trunc(StopAsWritten(CenterX(p), stopX, p.unitsPerMmX, flags).value), bRepeats])
    ensures r.Ok? <==> (
      StartAsWritten(CenterX(p), startX, p.unitsPerMmX, flags).Some? &&
      StopAsWritten(CenterX(p), stopX, p.unitsPerMmX, flags).Some? &&
      InX(p, StartAsWritten(CenterX(p), startX, p.unitsPerMmX, flags).value) &&
      InX(p, StopAsWritten(CenterX(p), stopX, p.unitsPerMmX, flags).value))
  {
    var s := StartAsWritten(CenterX(p), startX, p.unitsPerMmX, flags);
    var e := StopAsWritten(CenterX(p), stopX, p.unitsPerMmX, flags);
    if s.Some? && e.Some? && InX(p, s.value) && InX(p, e.value) then
      Ok(Command("xramp", [Trunc(s.value), Trunc(e.value), bRepeats]))
    else Err(CoordinatesInvalid)
  }

  /** ScanYRamp as written: the same asymmetric sign and lost flags on the Y axis. */
  function ScanYRampAsWritten(p: Profile, startY: Length, stopY: Length, bRepeats: int, flags: Flags): (r: Result<Line>)
    ensures r.Ok? ==> r.value == Command("yramp",
      [Trunc(StartAsWritten(CenterY(p), startY, p.unitsPerMmY, flags).value),
       Trunc(StopAsWritten(CenterY(p), stopY, p.unitsPerMmY, flags).value), bRepeats])
    ensures r.Ok? <==> (
      StartAsWritten(CenterY(p), startY, p.unitsPerMmY, flags).Some? &&
      StopAsWritten(CenterY(p), stopY, p.unitsPerMmY, flags).Some? &&
      InY(p, StartAsWritten(CenterY(p), startY, p.unitsPerMmY, flags).value) &&
      InY(p, StopAsWritten(CenterY(p), stopY, p.unitsPerMmY, flags).value))
  {
    var s := StartAsWritten(CenterY(p), startY, p.unitsPerMmY, flags);
    var e := StopAsWritten(CenterY(p), stopY, p.unitsPerMmY, flags);
    if s.Some? && e.Some? && InY(p, s.value) && InY(p, e.value) then
      Ok(Command("yramp", [Trunc(s.value), Trunc(e.value), bRepeats]))
    else Err(CoordinatesInvalid)
  }

  /**
   * ScanXYRamp as written: the asymmetric sign, the lost flags, and a
   * condition that is a non-empty tuple and so always true: no coordinate
   * is checked.  It fails only where a conversion fails.
   */
  function ScanXYRampAsWritten(p: Profile, startX: Length, startY: Length, stopX: Length, stopY: Length, bRepeats: int, flags: Flags): (r: Result<Line>)
    ensures r.Ok? <==>
      StartAsWritten(CenterX(p), startX, p.unitsPerMmX, flags).Some? && StopAsWritten(CenterX(p), stopX, p.unitsPerMmX, flags).Some? &&
      StartAsWritten(CenterY(p), startY, p.unitsPerMmY, flags).Some? && StopAsWritten(CenterY(p), stopY, p.unitsPerMmY, flags).Some?
    ensures r.Ok? ==> r.value == Command("xy_ramp",
      [Trunc(StartAsWritten(CenterX(p), startX, p.unitsPerMmX, flags).value),
       Trunc(StopAsWritten(CenterX(p), stopX, p.unitsPerMmX, flags).value),
       Trunc(StartAsWritten(CenterY(p), startY, p.unitsPerMmY, flags).value),
       Trunc(StopAsWritten(CenterY(p), stopY, p.unitsPerMmY, flags).value), bRepeats])
  {
    var xs := StartAsWritten(CenterX(p), startX, p.unitsPerMmX, flags);
    var ys := StartAsWritten(CenterY(p), startY, p.unitsPerMmY, flags);
    var xe := StopAsWritten(CenterX(p), stopX, p.unitsPerMmX, flags);
    var ye := StopAsWritten(CenterY(p), stopY, p.unitsPerMmY, flags);
    if xs.Some? && ys.Some? && xe.Some? && ye.Some? then
      Ok(Command("xy_ramp", [Trunc(xs.value), Trunc(xe.value), Trunc(ys.value), Trunc(ye.value), bRepeats]))
    else Err(CoordinatesInvalid)
  }

  /** As written, every conversion succeeds and reads its length as millimetres. */
  lemma ConvertedAsWrittenMillimetres(x: Length, unitsPerMm: real, flags: Flags)
    ensures ConvertedAsWritten(x, unitsPerMm, flags) == Some(Millimetres(x) * unitsPerMm)
  {
  }

  /**
   * As written, the XY ramp accepts every request, whatever its flags and
   * however far outside the bounds its ends lie: each start is the centre
   * minus its millimetres times the gain, each stop the centre plus them.
   */
  lemma XYRampAsWrittenAccepts(p: Profile, startX: Length, startY: Length, stopX: Length, stopY: Length, bRepeats: int, flags: Flags)
    ensures ScanXYRampAsWritten(p, startX, startY, stopX, stopY, bRepeats, flags).Ok?
    ensures StartAsWritten(CenterX(p), startX, p.unitsPerMmX, flags) == Some(CenterX(p) - Millimetres(startX) * p.unitsPerMmX)
    ensures StopAsWritten(CenterX(p), stopX, p.unitsPerMmX, flags) == Some(CenterX(p) + Millimetres(stopX) * p.unitsPerMmX)
    ensures StartAsWritten(CenterY(p), startY, p.unitsPerMmY, flags) == Some(CenterY(p) - Millimetres(startY) * p.unitsPerMmY)
    ensures StopAsWritten(CenterY(p), stopY, p.unitsPerMmY, flags) == Some(CenterY(p) + Millimetres(stopY) * p.unitsPerMmY)
  {
    ConvertedAsWrittenMillimetres(startX, p.unitsPerMmX, flags);
    ConvertedAsWrittenMillimetres(stopX, p.unitsPerMmX, flags);
    ConvertedAsWrittenMillimetres(startY, p.unitsPerMmY, flags);
    ConvertedAsWrittenMillimetres(stopY, p.unitsPerMmY, flags);
  }

  // -------------------------------------------------------------- scans

  /** Scan count times: any integer, negative included (negative scans indefinitely). */
  function ScanNTimes(count: int): Line
  {
    Command("scan", [count])
  }

  function ScanNTimesNoTrigger(count: int): Line
  {
    Command("ntscan", [count])
  }

  function ScanStop(): Line { Command("stop", []) }

  /** The two lines the port search sends, as text. */
  const PingText := "ping"
  const StopText := "stop"

  lemma ProbeTexts()
    ensures Render(Ping()) == PingText && Render(ScanStop()) == StopText
    ensures PingText + "\n" == "ping\n" && StopText + "\n" == "stop\n"
  {
    RenderKeyword("ping");
    RenderKeyword("stop");
  }

  // -------------------------------------------------------------- motors

  const MotorIdentifiers: set<string> := {"q", "p", "i", "h"}

  /** The identifier that addresses every motor at once. */
  const AllMotors := "a"

  lemma MotorWordOk(id: string)
    requires id in MotorIdentifiers || id == AllMotors
    ensures WordOk(id)
  {
  }

  /** Top speed or top acceleration of a motor: the identifier must name one of the four motors. */
  function MotorSetting(keyword: string, id: string, value: Option<int>): (r: Result<Line>)
    ensures r.Ok? <==> id in MotorIdentifiers
    ensures r.Ok? && value.None? ==> r.value == Line(keyword, [Word(id)])
    ensures r.Ok? && value.Some? ==> r.value == Line(keyword, [Word(id), Dec(value.value)])
  {
    if id in MotorIdentifiers then
      match value
      case None => Ok(Line(keyword, [Word(id)]))
      case Some(v) => Ok(Line(keyword, [Word(id), Dec(v)]))
    else Err(MotorSettingInvalid)
  }

  function MotorSetTopSpeed(id: string, value: Option<int>): (r: Result<Line>)
    ensures r.Ok? <==> id in MotorIdentifiers
    ensures r.Ok? && value.None? ==> r.value == Line("mmset", [Word(id)])
    ensures r.Ok? && value.Some? ==> r.value == Line("mmset", [Word(id), Dec(value.value)])
  {
    MotorSetting("mmset", id, value)
  }

  function MotorSetTopAcceleration(id: string, value: Option<int>): (r: Result<Line>)
    ensures r.Ok? <==> id in MotorIdentifiers
    ensures r.Ok? && value.None? ==> r.value == Line("maset", [Word(id)])
    ensures r.Ok? && value.Some? ==> r.value == Line("maset", [Word(id), Dec(value.value)])
  {
    MotorSetting("maset", id, value)
  }

  /**
   * The motor settings as written: for an unknown identifier the function
   * builds a ValueError without raising it and falls off its end, so the
   * caller receives None.
   */
  function MotorSettingAsWritten(keyword: string, id: string, value: Option<int>): (r: Option<Line>)
    ensures r.None? <==> id !in MotorIdentifiers
    ensures r.Some? ==> MotorSetting(keyword, id, value).Ok? && r.value == MotorSetting(keyword, id, value).value
  {
    if id in MotorIdentifiers then Some(MotorSetting(keyword, id, value).value) else None
  }

  /** Home, stop or home-status of one motor, or of all of them with the default "a". */
  function MotorTarget(keyword: string, id: string): (r: Result<Line>)
    ensures r.Ok? <==> id == AllMotors || id in MotorIdentifiers
    ensures r.Ok? ==> r.value == Line(keyword, [Word(id)])
  {
    if id == AllMotors || id in MotorIdentifiers then
      Ok(Line(keyword, [Word(id)]))
    else Err(MotorInvalid)
  }

  function MotorHome(id: string): (r: Result<Line>)
    ensures r.Ok? <==> id == AllMotors || id in MotorIdentifiers
    ensures r.Ok? ==> r.value == Line("mgh", [Word(id)])
  {
    MotorTarget("mgh", id)
  }

  function MotorStop(id: string): (r: Result<Line>)
    ensures r.Ok? <==> id == AllMotors || id in MotorIdentifiers
    ensures r.Ok? ==> r.value == Line("mstop", [Word(id)])
  {
    MotorTarget("mstop", id)
  }

  function MotorIsHome(id: string): (r: Result<Line>)
    ensures r.Ok? <==> id == AllMotors || id in MotorIdentifiers
    ensures r.Ok? ==> r.value == Line("mih", [Word(id)])
  {
    MotorTarget("mih", id)
  }

  /**
   * Home, stop and home-status as written: the ValueError for an unknown
   * identifier is built but not raised, and control falls through to the
   * all-motors command.
   */
  function MotorTargetAsWritten(keyword: string, id: string): (l: Line)
    ensures id in MotorIdentifiers ==> l == Line(keyword, [Word(id)])
    ensures id !in MotorIdentifiers ==> l == Line(keyword, [Word(AllMotors)])
  {
    if id != AllMotors && id in MotorIdentifiers then MotorTarget(keyword, id).value
    else MotorTarget(keyword, AllMotors).value
  }

  /** Motor direction: forwards is 0, backwards is 1. */
  function MotorDirection(id: string, forwards: bool): (r: Result<Line>)
    ensures r.Ok? <==> id in MotorIdentifiers
    ensures r.Ok? ==> r.value == Line("mgd", [Word(id), Dec(if forwards then 0 else 1)])
  {
    if id in MotorIdentifiers then
      Ok(Line("mgd", [Word(id), Dec(if forwards then 0 else 1)]))
    else Err(MotorDirectionInvalid)
  }

  /** MotorDirection as written: an unknown identifier yields None instead of an error. */
  function MotorDirectionAsWritten(id: string, forwards: bool): (r: Option<Line>)
    ensures r.None? <==> id !in MotorIdentifiers
    ensures r.Some? ==> MotorDirection(id, forwards).Ok? && r.value == MotorDirection(id, forwards).value
  {
    if id in MotorIdentifiers then Some(MotorDirection(id, forwards).value) else None
  }

  function MotorGetInfo(): Line { Command("minfo", []) }
}
