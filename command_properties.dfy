/**
 * Properties of the command encoders across calls, and the inputs that show
 * where the encoders as written differ from what they document.
 */
module CommandProperties {
  import opened Wrappers
  import opened Units
  import opened Rounding
  import opened WireFormat
  import opened Calibration
  import opened McuCalibration
  import opened SerialCommands

  /** The argument-less galvo commands are exactly their keywords. */
  lemma FixedGalvoCommands()
    ensures Render(Version()) == "ver"
    ensures Render(Reset()) == "reset"
  {
    RenderKeyword("ver");
    RenderKeyword("reset");
  }

  /** The firmware-update and liveness commands are exactly their keywords. */
  lemma FixedServiceCommands()
    ensures Render(FirmwareUpdate()) == "dfu"
    ensures Render(Ping()) == "ping"
  {
    RenderKeyword("dfu");
    RenderKeyword("ping");
  }

  /** Stopping a scan and reading the motor information are exactly their keywords. */
  lemma FixedStopCommands()
    ensures Render(ScanStop()) == "stop"
    ensures Render(MotorGetInfo()) == "minfo"
  {
    RenderKeyword("stop");
    RenderKeyword("minfo");
  }

  /** Scans and EEPROM reads are "%s %d" of their keyword and the integer. */
  lemma CountedCommands(n: int)
    ensures Render(ScanNTimes(n)) == "scan " + IntToString(n)
    ensures Render(ScanNTimesNoTrigger(n)) == "ntscan " + IntToString(n)
    ensures Render(ReadEEPROM(n)) == "eer " + IntToString(n)
  {
    RenderOne("scan", n);
    RenderOne("ntscan", n);
    RenderOne("eer", n);
  }

  /** Leaving the argument at its default sends the bare keyword, a query: the lens settings. */
  lemma BareLensQueries()
    ensures Focus(None).Ok? && Render(Focus(None).value) == "focus"
    ensures Foci(None).Ok? && Render(Foci(None).value) == "foci"
  {
    RenderKeyword("focus");
    RenderKeyword("foci");
  }

  /** The sweep-shape queries. */
  lemma BareSweepQueries()
    ensures Render(ScanAScans(None)) == "a_scans"
    ensures ScanBScans(None).Ok? && Render(ScanBScans(None).value) == "b_scans"
  {
    RenderKeyword("a_scans");
    RenderKeyword("b_scans");
  }

  /** The return-clock and phase queries. */
  lemma BareDividerQueries()
    ensures ScanReturnClockDivider(None).Ok? && Render(ScanReturnClockDivider(None).value) == "A_div"
    ensures ScanPhaseShift(None).Ok? && Render(ScanPhaseShift(None).value) == "Phase"
  {
    RenderKeyword("A_div");
    RenderKeyword("Phase");
  }

  /** The pulse-timing queries. */
  lemma BarePulseQueries()
    ensures ScanPulseDelay(None).Ok? && Render(ScanPulseDelay(None).value) == "delay"
    ensures ScanPulseDuration(None).Ok? && Render(ScanPulseDuration(None).value) == "pulse"
  {
    RenderKeyword("delay");
    RenderKeyword("pulse");
  }

  /** The return-sweep queries. */
  lemma BareReturnQueries()
    ensures ScanReturnSetDuration(None).Ok? && Render(ScanReturnSetDuration(None).value) == "t_ret"
    ensures Render(ScanReturnTrigger(None)) == "trigger"
  {
    RenderKeyword("t_ret");
    RenderKeyword("trigger");
  }

  /** The trigger-gap queries. */
  lemma BareHoldQueries()
    ensures ScanATriggerGap(None).Ok? && Render(ScanATriggerGap(None).value) == "a_hold"
    ensures ScanBTriggerGap(None).Ok? && Render(ScanBTriggerGap(None).value) == "b_hold"
  {
    RenderKeyword("a_hold");
    RenderKeyword("b_hold");
  }

  /** The trigger-delay queries. */
  lemma BareTriggerDelayQueries()
    ensures ScanTriggerDelay(None).Ok? && Render(ScanTriggerDelay(None).value) == "trdelay"
    ensures ScanTriggerDelayEnable(None).Ok? && Render(ScanTriggerDelayEnable(None).value) == "trdmode"
  {
    RenderKeyword("trdelay");
    RenderKeyword("trdmode");
  }

  /** The keywords the scanner encoders write. */
  const ScanKeywords: set<string> := {"ver", "reset", "dfu", "ping", "focus", "foci", "out1", "out2", "eer",
    "a_scans", "b_scans", "delay", "pulse", "t_ret", "A_div", "Phase", "trigger", "a_hold", "b_hold",
    "trdelay", "trdmode", "xramp", "yramp", "xy_ramp", "scan", "ntscan", "stop", "minfo"}

  /** The keywords of the motor encoders, whose first field is a motor identifier. */
  const MotorKeywords: set<string> := {"mmset", "maset", "mgh", "mstop", "mih", "mgd"}

  /**
   * Every scanner command reads back from its text as the same keyword and
   * integers: the device receives what the encoder meant.
   */
  lemma ScanCommandReadsBack(keyword: string, args: seq<int>)
    requires keyword in ScanKeywords
    ensures Parse(Render(Command(keyword, args))) == Some(Command(keyword, args))
  {
    CommandOk(keyword, args);
  }

  /** A motor command reads back with its identifier as a word and its value as a decimal. */
  lemma MotorCommandReadsBack(keyword: string, id: string, values: seq<int>)
    requires keyword in MotorKeywords
    requires id in MotorIdentifiers || id == AllMotors
    requires |values| <= 1
    ensures Parse(Render(Line(keyword, [Word(id)] + Decimals(values)))) == Some(Line(keyword, [Word(id)] + Decimals(values)))
  {
    MotorWordOk(id);
    assert WordOk(keyword) by { MotorKeywordsOk(keyword); }
    var l := Line(keyword, [Word(id)] + Decimals(values));
    assert forall k :: 0 <= k < |l.fields| ==> FieldOk(l.fields[k]) by {
      forall k | 0 <= k < |l.fields| ensures FieldOk(l.fields[k]) {
        if k > 0 { assert l.fields[k] == Decimals(values)[k - 1]; }
      }
    }
    ParseRender(l);
  }

  lemma MotorKeywordsOk(keyword: string)
    requires keyword in MotorKeywords
    ensures WordOk(keyword)
  {
  }

  /** An EEPROM write reads back with its address as a decimal and its byte in hexadecimal. */
  lemma EepromWriteReadsBack(address: int, value: int)
    requires WriteEEPROM(address, value).Ok?
    ensures Parse(Render(WriteEEPROM(address, value).value)) == Some(Line("eew", [Dec(address), Hex(value)]))
  {
    var l := Line("eew", [Dec(address), Hex(value)]);
    assert LineOk(l);
    ParseRender(l);
  }

  /** Distinct scanner commands have distinct texts: the device cannot confuse them. */
  lemma EncodingsDistinct(a: seq<int>, b: seq<int>, ka: string, kb: string)
    requires ka in ScanKeywords && kb in ScanKeywords
    requires Command(ka, a) != Command(kb, b)
    ensures Render(Command(ka, a)) != Render(Command(kb, b))
  {
    ScanCommandReadsBack(ka, a);
    ScanCommandReadsBack(kb, b);
  }

  /** Swapping the ends of an X ramp is accepted just when the ramp is, and swaps the fields. */
  lemma XRampReversed(p: Profile, a: Length, b: Length, bRepeats: int, flags: Flags)
    ensures ScanXRamp(p, a, b, bRepeats, flags).Ok? <==> ScanXRamp(p, b, a, bRepeats, flags).Ok?
    ensures ScanXRamp(p, a, b, bRepeats, flags).Ok? ==>
      ScanXRamp(p, b, a, bRepeats, flags).value.fields ==
      [ScanXRamp(p, a, b, bRepeats, flags).value.fields[1], ScanXRamp(p, a, b, bRepeats, flags).value.fields[0], Dec(bRepeats)]
  {
  }

  /**
   * A ramp from -l to l millimetres is centred: its ends lie 2·l·gain apart,
   * one on each side of the centre.
   */
  lemma XRampCentred(p: Profile, l: real)
    ensures XPosition(p, Length(-l, Millimetre), []).Some? && XPosition(p, Length(l, Millimetre), []).Some?
    ensures XPosition(p, Length(-l, Millimetre), []).value + XPosition(p, Length(l, Millimetre), []).value == 2.0 * CenterX(p)
    ensures XPosition(p, Length(l, Millimetre), []).value - XPosition(p, Length(-l, Millimetre), []).value == 2.0 * l * p.unitsPerMmX
  {
    CentredConversion(p, l);
    var lo := XPosition(p, Length(-l, Millimetre), []).value;
    var hi := XPosition(p, Length(l, Millimetre), []).value;
    assert lo - CenterX(p) == -l * p.unitsPerMmX;
    assert hi - CenterX(p) == l * p.unitsPerMmX;
  }

  // ------------------------------------------------------------ findings

  /**
   * As written, the start of a ramp is the centre minus the converted
   * offset, so the ramp from -l to l has both ends at the same point,
   * whatever l and the calibration.
   */
  lemma {:induction false} RampSignCollapses(p: Profile, l: real, u: LengthUnit, flags: Flags)
    ensures StartAsWritten(CenterX(p), Length(-l, u), p.unitsPerMmX, flags) == StopAsWritten(CenterX(p), Length(l, u), p.unitsPerMmX, flags)
    ensures StartAsWritten(CenterY(p), Length(-l, u), p.unitsPerMmY, flags) == StopAsWritten(CenterY(p), Length(l, u), p.unitsPerMmY, flags)
  {
    var m := Millimetres(Length(l, u));
    assert Millimetres(Length(-l, u)) == -m;
    var gx, gy := p.unitsPerMmX, p.unitsPerMmY;
    assert (-m) * gx == -(m * gx);
    assert (-m) * gy == -(m * gy);
    var sx := StartAsWritten(CenterX(p), Length(-l, u), gx, flags);
    var ex := StopAsWritten(CenterX(p), Length(l, u), gx, flags);
    assert ConvertedAsWritten(Length(-l, u), gx, flags).value == (-m) * gx;
    assert ConvertedAsWritten(Length(l, u), gx, flags).value == m * gx;
    assert sx.Some? && ex.Some? && sx.value == ex.value;
    var sy := StartAsWritten(CenterY(p), Length(-l, u), gy, flags);
    var ey := StopAsWritten(CenterY(p), Length(l, u), gy, flags);
    assert ConvertedAsWritten(Length(-l, u), gy, flags).value == (-m) * gy;
    assert ConvertedAsWritten(Length(l, u), gy, flags).value == m * gy;
    assert sy.Some? && ey.Some? && sy.value == ey.value;
  }

  /** The concrete case: the MCU ramp from -1 mm to 1 mm becomes "xramp 17257 17257 1" instead of "xramp 12743 17257 1". */
  lemma RampSignCounterexample()
    ensures ScanXRampAsWritten(Mcu, Length(-1.0, BareLength), Length(1.0, BareLength), 1, []).Ok?
    ensures ScanXRampAsWritten(Mcu, Length(-1.0, BareLength), Length(1.0, BareLength), 1, []).value ==
      Command("xramp", [17257, 17257, 1])
    ensures ScanXRamp(Mcu, Length(-1.0, BareLength), Length(1.0, BareLength), 1, []).Ok?
    ensures ScanXRamp(Mcu, Length(-1.0, BareLength), Length(1.0, BareLength), 1, []).value ==
      Command("xramp", [12743, 17257, 1])
  {
    var lo, hi := Length(-1.0, BareLength), Length(1.0, BareLength);
    assert StartAsWritten(15000.0, lo, 2257.0, []) == Some(17257.0);
    assert StopAsWritten(15000.0, hi, 2257.0, []) == Some(17257.0);
    assert XPosition(Mcu, lo, []).value == 12743.0;
    assert XPosition(Mcu, hi, []).value == 17257.0;
    assert Trunc(12743.0) == 12743 && Trunc(17257.0) == 17257;
  }

  /**
   * As written, a ramp hands its flags to the conversion inside one tuple,
   * so device-unit offsets are read as millimetres: offsets of ±1000 device
   * units become ±2257000 and the ramp is refused.
   */
  lemma RampFlagsCounterexample()
    ensures ScanXRampAsWritten(Mcu, Length(-1000.0, BareLength), Length(1000.0, BareLength), 1, ["wasatchUnits"]).Err?
    ensures ScanXRamp(Mcu, Length(-1000.0, BareLength), Length(1000.0, BareLength), 1, ["wasatchUnits"]).Ok?
    ensures ScanXRamp(Mcu, Length(-1000.0, BareLength), Length(1000.0, BareLength), 1, ["wasatchUnits"]).value ==
      Command("xramp", [14000, 16000, 1])
  {
    var lo, hi := Length(-1000.0, BareLength), Length(1000.0, BareLength);
    assert WasatchUnits(["wasatchUnits"]);
    assert StopAsWritten(15000.0, hi, 2257.0, ["wasatchUnits"]) == Some(15000.0 + 2257000.0);
    assert XPosition(Mcu, lo, ["wasatchUnits"]).value == 14000.0;
    assert XPosition(Mcu, hi, ["wasatchUnits"]).value == 16000.0;
    assert Trunc(14000.0) == 14000 && Trunc(16000.0) == 16000;
  }

  /**
   * As written, the rectangle ramp checks nothing: a 10 mm start offset
   * puts X at 15000 - 22570 = -7570, outside [5000, 25000], and the line
   * is sent all the same; the corrected encoder (X at 37570) refuses it.
   */
  lemma XYRampUncheckedCounterexample()
    ensures ScanXYRampAsWritten(Mcu, Length(10.0, BareLength), Length(0.0, BareLength), Length(0.0, BareLength), Length(0.0, BareLength), 1, []).Ok?
    ensures !InX(Mcu, StartAsWritten(CenterX(Mcu), Length(10.0, BareLength), Mcu.unitsPerMmX, []).value)
    ensures ScanXYRamp(Mcu, Length(10.0, BareLength), Length(0.0, BareLength), Length(0.0, BareLength), Length(0.0, BareLength), 1, []).Err?
  {
    assert StartAsWritten(15000.0, Length(10.0, BareLength), 2257.0, []) == Some(15000.0 - 22570.0);
    assert XPosition(Mcu, Length(10.0, BareLength), []).value == 37570.0;
  }

  /** As written, a pulse of 70000 µs passes the 605535 bound although the counter holds at most 65535. */
  lemma PulseBoundCounterexample()
    ensures ScanPulseDurationAsWritten(Some(Time(70000.0, Microsecond))).Ok?
    ensures ScanPulseDuration(Some(Time(70000.0, Microsecond))).Err?
  {
    var t := Time(70000.0, Microsecond);
    assert Microseconds(t) == 70000.0;
    RoundInteger(70000);
  }

  /** The same for the 16-bit counters: 70000 passes as written and is refused once bounded by 65535. */
  lemma CountBoundCounterexample()
    ensures CountAsWritten("A_div", Some(70000)).Ok? && ScanReturnClockDivider(Some(70000)).Err?
    ensures CountAsWritten("Phase", Some(70000)).Ok? && ScanPhaseShift(Some(70000)).Err?
  {
  }

  lemma TriggerCountBoundCounterexample()
    ensures CountAsWritten("a_hold", Some(70000)).Ok? && ScanATriggerGap(Some(70000)).Err?
    ensures CountAsWritten("b_hold", Some(70000)).Ok? && ScanBTriggerGap(Some(70000)).Err?
  {
  }

  lemma TriggerDelayBoundCounterexample()
    ensures CountAsWritten("trdelay", Some(70000)).Ok? && ScanTriggerDelay(Some(70000)).Err?
  {
  }

  /** As written, homing an unknown motor "z" homes every motor: the text sent is "mgh a". */
  lemma MotorFallbackCounterexample()
    ensures MotorTargetAsWritten("mgh", "z") == Line("mgh", [Word("a")])
    ensures MotorTargetAsWritten("mstop", "z") == Line("mstop", [Word("a")])
    ensures MotorHome("z").Err? && MotorStop("z").Err? && MotorIsHome("z").Err?
  {
    assert "z" !in MotorIdentifiers;
  }

  /** As written, setting the top speed or direction of an unknown motor yields None, not an error. */
  lemma MotorNoneCounterexample()
    ensures MotorSettingAsWritten("mmset", "z", Some(5)).None? && MotorSetTopSpeed("z", Some(5)).Err?
    ensures MotorSettingAsWritten("maset", "z", Some(5)).None? && MotorSetTopAcceleration("z", Some(5)).Err?
    ensures MotorDirectionAsWritten("z", true).None? && MotorDirection("z", true).Err?
  {
    assert "z" !in MotorIdentifiers;
  }
}
