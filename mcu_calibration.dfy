/**
 * The MCU calibration revision: a fixed gain of 2257 device units per
 * millimetre on X and 2207 on Y, a 5000..25000 workspace on both axes,
 * a 100 µs pulse period, 100 pulses per sweep, a 0.75 duty cycle and a dose
 * constant of 3000 µs per millimetre.
 */
module McuCalibration {
  import opened Units
  import opened Rounding
  import opened Calibration

  const Mcu := Profile(5000.0, 25000.0, 5000.0, 25000.0, 2257.0, 2207.0, 100, 100, 0.75, 3000.0)

  lemma McuOk()
    ensures ProfileOk(Mcu)
  {
  }

  /** Both centres are 15000, strictly inside the bounds. */
  lemma McuCentres()
    ensures CenterX(Mcu) == 15000.0 && CenterY(Mcu) == 15000.0
    ensures Mcu.minX < CenterX(Mcu) < Mcu.maxX && Mcu.minY < CenterY(Mcu) < Mcu.maxY
  {
  }

  /** A bare number is read as millimetres: X gives mm·2257, Y gives mm·2207. */
  lemma McuBareConversion(v: real, flags: Flags)
    requires !WasatchUnits(flags)
    ensures XToWasatchUnits(Mcu, Length(v, BareLength), flags).Some?
    ensures XToWasatchUnits(Mcu, Length(v, BareLength), flags).value == v * 2257.0
    ensures YToWasatchUnits(Mcu, Length(v, BareLength), flags).Some?
    ensures YToWasatchUnits(Mcu, Length(v, BareLength), flags).value == v * 2207.0
  {
    var l := Length(v, BareLength);
    assert Millimetres(l) == v;
    assert XToWasatchUnits(Mcu, l, flags).value == Millimetres(l) * 2257.0;
    assert YToWasatchUnits(Mcu, l, flags).value == Millimetres(l) * 2207.0;
  }

  /** One pulse-period train: the default pulse is 75 µs on and 25 µs off. */
  lemma McuDefaultPulse()
    ensures PulseDuration(Mcu, Mcu.dutyCycle) == 75
    ensures PulseDelay(Mcu, Mcu.dutyCycle) == 25
    ensures PulseDuration(Mcu, Mcu.dutyCycle) + PulseDelay(Mcu, Mcu.dutyCycle) == Mcu.pulsePeriodUs
  {
    RoundInteger(75);
    RoundInteger(25);
  }

  /** A sweep lasts 100 pulses of 100 µs, i.e. 0.01 s, and there are 100 pulses in it. */
  lemma McuSweep()
    ensures SweepSeconds(Mcu) == 0.01
    ensures PulsesPerSweep(Mcu) == 100
  {
  }

  /** NumScansFromSecs on this revision: the least n with n·0.01 s covering the duration. */
  lemma McuNumScansFromSecs(duration: Time, pulsePeriod: Time, pulseCount: int)
    ensures NumScansFromSecs(Mcu, duration, pulsePeriod, pulseCount) as real * 0.01 >= ToSeconds(duration)
    ensures (NumScansFromSecs(Mcu, duration, pulsePeriod, pulseCount) - 1) as real * 0.01 < ToSeconds(duration)
  {
    McuSweep();
  }

  /** One second of scanning is 100 sweeps. */
  lemma McuOneSecond()
    ensures NumScansFromSecs(Mcu, Time(1.0, BareTime), Time(100.0, Microsecond), 100) == 100
  {
    var n := NumScansFromSecs(Mcu, Time(1.0, BareTime), Time(100.0, Microsecond), 100);
    McuNumScansFromSecs(Time(1.0, BareTime), Time(100.0, Microsecond), 100);
    assert ToSeconds(Time(1.0, BareTime)) == 1.0;
    assert n as real * 0.01 >= 1.0 && (n - 1) as real * 0.01 < 1.0;
  }
}
