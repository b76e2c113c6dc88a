/**
 * The unit conversions shared by both calibration revisions: device units
 * ("wasatch units") per millimetre on each axis, the axis bounds and centres,
 * the pulse timing, and the scan counts derived from a duration or a dose.
 * A Profile holds one revision's constants; McuCalibration and
 * SpanCalibration give the two revisions.
 */
module Calibration {
  import opened Wrappers
  import opened Units
  import opened Rounding

  datatype Profile = Profile(
    minX: real, maxX: real, minY: real, maxY: real,
    unitsPerMmX: real, unitsPerMmY: real,
    pulsePeriodUs: int,     // one pulse plus its delay
    pulsesPerSweep: int,    // triggers in one minor sweep
    dutyCycle: real,        // the duty cycle the dose constant assumes
    usPerMm: real)          // dwell time that fully bleaches one millimetre

  predicate ProfileOk(p: Profile)
  {
    p.minX < p.maxX && p.minY < p.maxY && p.unitsPerMmX > 0.0 && p.unitsPerMmY > 0.0 &&
    p.pulsePeriodUs > 0 && p.pulsesPerSweep > 0 && p.dutyCycle > 0.0 && p.usPerMm > 0.0
  }

  function CenterX(p: Profile): real { (p.maxX + p.minX) / 2.0 }

  function CenterY(p: Profile): real { (p.maxY + p.minY) / 2.0 }

  lemma CentersInside(p: Profile)
    requires ProfileOk(p)
    ensures p.minX < CenterX(p) < p.maxX
    ensures p.minY < CenterY(p) < p.maxY
  {
  }

  /**
   * A length along one axis in device units.  With the wasatchUnits flag a
   * bare number already is in device units and comes back unchanged; without
   * it a bare number is read as millimetres.  A tagged length under the flag
   * keeps its dimension, which the callers cannot compare with the device
   * bounds (pint raises); that case is None.
   */
  function ToWasatchUnits(x: Length, unitsPerMm: real, flags: Flags): (r: Option<real>)
    ensures r.None? <==> WasatchUnits(flags) && x.unit != BareLength
    ensures WasatchUnits(flags) && x.unit == BareLength ==> r == Some(x.magnitude)
    ensures !WasatchUnits(flags) ==> r == Some(Millimetres(x) * unitsPerMm)
  {
    if WasatchUnits(flags) then
      if x.unit == BareLength then Some(x.magnitude) else None
    else
      Some(Millimetres(x) * unitsPerMm)
  }

  function XToWasatchUnits(p: Profile, x: Length, flags: Flags): Option<real>
  {
    ToWasatchUnits(x, p.unitsPerMmX, flags)
  }

  function YToWasatchUnits(p: Profile, y: Length, flags: Flags): Option<real>
  {
    ToWasatchUnits(y, p.unitsPerMmY, flags)
  }

  /** With the wasatchUnits flag both conversions return a bare input unchanged. */
  lemma WasatchUnitsIdentity(p: Profile, v: real, flags: Flags)
    requires WasatchUnits(flags)
    ensures XToWasatchUnits(p, Length(v, BareLength), flags) == Some(v)
    ensures YToWasatchUnits(p, Length(v, BareLength), flags) == Some(v)
  {
  }

  /** Without the flag the conversion is linear in the millimetre value, and 0 maps to 0. */
  lemma ConversionLinear(p: Profile, a: real, b: real, flags: Flags)
    requires !WasatchUnits(flags)
    ensures XToWasatchUnits(p, Length(a + b, Millimetre), flags).value ==
            XToWasatchUnits(p, Length(a, Millimetre), flags).value + XToWasatchUnits(p, Length(b, Millimetre), flags).value
    ensures YToWasatchUnits(p, Length(a + b, Millimetre), flags).value ==
            YToWasatchUnits(p, Length(a, Millimetre), flags).value + YToWasatchUnits(p, Length(b, Millimetre), flags).value
    ensures XToWasatchUnits(p, Length(0.0, BareLength), flags) == Some(0.0)
    ensures YToWasatchUnits(p, Length(0.0, BareLength), flags) == Some(0.0)
  {
    assert (a + b) * 1.0 * p.unitsPerMmX == a * 1.0 * p.unitsPerMmX + b * 1.0 * p.unitsPerMmX;
    assert (a + b) * 1.0 * p.unitsPerMmY == a * 1.0 * p.unitsPerMmY + b * 1.0 * p.unitsPerMmY;
    assert Millimetres(Length(0.0, BareLength)) == 0.0;
  }

  /** A bare number is read as millimetres: it converts exactly like the same number of Millimetre. */
  lemma BareIsMillimetres(p: Profile, v: real, flags: Flags)
    requires !WasatchUnits(flags)
    ensures XToWasatchUnits(p, Length(v, BareLength), flags) == XToWasatchUnits(p, Length(v, Millimetre), flags)
    ensures YToWasatchUnits(p, Length(v, BareLength), flags) == YToWasatchUnits(p, Length(v, Millimetre), flags)
  {
    var bare, mm := Length(v, BareLength), Length(v, Millimetre);
    assert Millimetres(bare) == Millimetres(mm);
    assert XToWasatchUnits(p, bare, flags).value == XToWasatchUnits(p, mm, flags).value;
    assert YToWasatchUnits(p, bare, flags).value == YToWasatchUnits(p, mm, flags).value;
  }

  /** A micrometre length converts as a thousandth of the same number of millimetres. */
  lemma MicrometreScale(p: Profile, v: real, flags: Flags)
    requires !WasatchUnits(flags)
    ensures XToWasatchUnits(p, Length(1000.0 * v, Micrometre), flags) == XToWasatchUnits(p, Length(v, Millimetre), flags)
    ensures YToWasatchUnits(p, Length(1000.0 * v, Micrometre), flags) == YToWasatchUnits(p, Length(v, Millimetre), flags)
  {
    var um, mm := Length(1000.0 * v, Micrometre), Length(v, Millimetre);
    assert MillimetresPer(Micrometre) == 0.001;
    assert Millimetres(um) == Millimetres(mm);
    assert XToWasatchUnits(p, um, flags).value == XToWasatchUnits(p, mm, flags).value;
    assert YToWasatchUnits(p, um, flags).value == YToWasatchUnits(p, mm, flags).value;
  }

  /** A duration in seconds; a bare number is taken as seconds. */
  function ToSeconds(t: Time): (s: real)
    ensures t.unit != Microsecond ==> s == t.magnitude
    ensures t.unit == Microsecond ==> s * 1000000.0 == t.magnitude
  {
    Seconds(t)
  }

  /** ToSeconds is the identity on a duration already in seconds. */
  lemma ToSecondsIdempotent(t: Time)
    ensures ToSeconds(Time(ToSeconds(t), Second)) == ToSeconds(t)
  {
  }

  /** A time in whole-number-free microseconds: pint's .to(microsecond).magnitude. */
  function Microseconds(t: Time): (us: real)
    ensures us == ToSeconds(t) * 1000000.0
  {
    Seconds(t) * 1000000.0
  }

  /** Length of one minor sweep in seconds: the pulse period times the pulses per sweep. */
  function SweepSeconds(p: Profile): (s: real)
    requires ProfileOk(p)
    ensures s > 0.0
  {
    (p.pulsePeriodUs as real / 1000000.0) * p.pulsesPerSweep as real
  }

  /**
   * The number of sweeps that cover the duration: ceil(t / sweep).  The
   * pulse period and count arguments are accepted and ignored; the profile's
   * constants are used.
   */
  function NumScansFromSecs(p: Profile, duration: Time, pulsePeriod: Time, pulseCount: int): (n: int)
    requires ProfileOk(p)
    ensures n as real * SweepSeconds(p) >= ToSeconds(duration)
    ensures (n - 1) as real * SweepSeconds(p) < ToSeconds(duration)
  {
    CeilDivBounds(ToSeconds(duration), SweepSeconds(p));
    Ceil(ToSeconds(duration) / SweepSeconds(p))
  }

  /** NumScansFromSecs is the least count whose sweeps cover the duration. */
  lemma NumScansFromSecsLeast(p: Profile, duration: Time, pulsePeriod: Time, pulseCount: int, m: int)
    requires ProfileOk(p)
    requires m as real * SweepSeconds(p) >= ToSeconds(duration)
    ensures NumScansFromSecs(p, duration, pulsePeriod, pulseCount) <= m
  {
    var n := NumScansFromSecs(p, duration, pulsePeriod, pulseCount);
    if m < n {
      MulLeq(m as real, (n - 1) as real, SweepSeconds(p));
      assert false;
    }
  }

  lemma NumScansFromSecsMonotonic(p: Profile, t1: Time, t2: Time, pulsePeriod: Time, pulseCount: int)
    requires ProfileOk(p)
    requires ToSeconds(t1) <= ToSeconds(t2)
    ensures NumScansFromSecs(p, t1, pulsePeriod, pulseCount) <= NumScansFromSecs(p, t2, pulsePeriod, pulseCount)
  {
    NumScansFromSecsLeast(p, t1, pulsePeriod, pulseCount, NumScansFromSecs(p, t2, pulsePeriod, pulseCount));
  }

  /** The period and count parameters make no difference to the result. */
  lemma NumScansFromSecsIgnoresParameters(p: Profile, duration: Time, pp1: Time, pc1: int, pp2: Time, pc2: int)
    requires ProfileOk(p)
    ensures NumScansFromSecs(p, duration, pp1, pc1) == NumScansFromSecs(p, duration, pp2, pc2)
  {
  }

  /**
   * The dwell time, in microseconds, that delivers the fraction `exposure` of
   * the full dose along `distance` when pulsing at `dutyCycle`: a lower duty
   * cycle needs proportionally longer.
   */
  function DoseMicroseconds(p: Profile, distance: Length, exposure: real, dutyCycle: real): real
    requires ProfileOk(p) && dutyCycle != 0.0
  {
    exposure * (p.usPerMm * Millimetres(distance) / (dutyCycle / p.dutyCycle))
  }

  /** Time of one forward-and-back pass pair in microseconds. */
  function PassPairMicroseconds(pulsePeriod: Time, pulsesPerSweep: int): real
  {
    2.0 * pulsesPerSweep as real * Microseconds(pulsePeriod)
  }

  /**
   * Passes needed for the full dose at the given duty cycle: the dose time
   * for the distance, stretched by the duty-cycle normalisation, divided by
   * the length of a forward-and-back pass pair.
   */
  function RequiredPasses(p: Profile, distance: Length, dutyCycle: real, pulsePeriod: Time, pulsesPerSweep: int): real
    requires ProfileOk(p) && dutyCycle != 0.0 && PassPairMicroseconds(pulsePeriod, pulsesPerSweep) != 0.0
  {
    var normalizedDutyCycle := dutyCycle / p.dutyCycle;
    var requiredTime := (p.usPerMm * Millimetres(distance)) / normalizedDutyCycle;
    requiredTime / PassPairMicroseconds(pulsePeriod, pulsesPerSweep)
  }

  /**
   * The number of forward-and-back passes whose dwell gives the dose, rounded
   * half to even.  A zero duty cycle or a zero pass length divides by zero.
   */
  function NumScans(p: Profile, distance: Length, exposure: real, dutyCycle: real, pulsePeriod: Time, pulsesPerSweep: int): (r: Option<int>)
    requires ProfileOk(p)
    ensures r.Some? <==> dutyCycle != 0.0 && PassPairMicroseconds(pulsePeriod, pulsesPerSweep) != 0.0
  {
    if dutyCycle == 0.0 || PassPairMicroseconds(pulsePeriod, pulsesPerSweep) == 0.0 then None
    else Some(RoundHalfEven(exposure * RequiredPasses(p, distance, dutyCycle, pulsePeriod, pulsesPerSweep)))
  }

  /** The count is the dose time over the pass-pair time, rounded to the nearest integer. */
  lemma NumScansDose(p: Profile, distance: Length, exposure: real, dutyCycle: real, pulsePeriod: Time, pulsesPerSweep: int)
    requires ProfileOk(p) && dutyCycle != 0.0 && PassPairMicroseconds(pulsePeriod, pulsesPerSweep) != 0.0
    ensures var r := NumScans(p, distance, exposure, dutyCycle, pulsePeriod, pulsesPerSweep);
      -0.5 <= r.value as real - DoseMicroseconds(p, distance, exposure, dutyCycle) / PassPairMicroseconds(pulsePeriod, pulsesPerSweep) <= 0.5
  {
    DoseOverPass(p, distance, exposure, dutyCycle, pulsePeriod, pulsesPerSweep);
  }

  /** The scaled passes are the dose time over the pass-pair time. */
  lemma DoseOverPass(p: Profile, distance: Length, exposure: real, dutyCycle: real, pulsePeriod: Time, pulsesPerSweep: int)
    requires ProfileOk(p) && dutyCycle != 0.0 && PassPairMicroseconds(pulsePeriod, pulsesPerSweep) != 0.0
    ensures exposure * RequiredPasses(p, distance, dutyCycle, pulsePeriod, pulsesPerSweep) ==
      DoseMicroseconds(p, distance, exposure, dutyCycle) / PassPairMicroseconds(pulsePeriod, pulsesPerSweep)
  {
    var required := (p.usPerMm * Millimetres(distance)) / (dutyCycle / p.dutyCycle);
    MulDiv(exposure, required, PassPairMicroseconds(pulsePeriod, pulsesPerSweep));
  }

  /** At the profile's own duty cycle the normalisation factor is 1: the passes are the plain dose time over the pass time. */
  lemma RequiredPassesAtDefaultDuty(p: Profile, distance: Length, dutyCycle: real, pulsePeriod: Time, pulsesPerSweep: int)
    requires ProfileOk(p) && dutyCycle == p.dutyCycle
    requires PassPairMicroseconds(pulsePeriod, pulsesPerSweep) != 0.0
    ensures RequiredPasses(p, distance, dutyCycle, pulsePeriod, pulsesPerSweep) ==
      p.usPerMm * Millimetres(distance) / PassPairMicroseconds(pulsePeriod, pulsesPerSweep)
  {
    var a := p.usPerMm * Millimetres(distance);
    assert dutyCycle / p.dutyCycle == 1.0;
    assert a / (dutyCycle / p.dutyCycle) == a;
  }

  /** No exposure, no passes. */
  lemma NumScansZeroExposure(p: Profile, distance: Length, dutyCycle: real, pulsePeriod: Time, pulsesPerSweep: int)
    requires ProfileOk(p)
    requires dutyCycle != 0.0 && PassPairMicroseconds(pulsePeriod, pulsesPerSweep) != 0.0
    ensures NumScans(p, distance, 0.0, dutyCycle, pulsePeriod, pulsesPerSweep) == Some(0)
  {
    RoundInteger(0);
  }

  lemma PassesNonNegative(p: Profile, distance: Length, dutyCycle: real, pulsePeriod: Time, pulsesPerSweep: int)
    requires ProfileOk(p) && dutyCycle > 0.0 && PassPairMicroseconds(pulsePeriod, pulsesPerSweep) > 0.0
    requires Millimetres(distance) >= 0.0
    ensures RequiredPasses(p, distance, dutyCycle, pulsePeriod, pulsesPerSweep) >= 0.0
  {
    var a := p.usPerMm * Millimetres(distance);
    MulLeq(0.0, Millimetres(distance), p.usPerMm);
    var b := dutyCycle / p.dutyCycle;
    assert b > 0.0;
    assert a / b >= 0.0;
  }

  /** Pulse on-time in whole microseconds: the nearest, and the even one at a tie, as Python's round. */
  function PulseDuration(p: Profile, dutyCycle: real): (us: int)
    ensures -0.5 <= us as real - dutyCycle * p.pulsePeriodUs as real <= 0.5
    ensures (us as real - dutyCycle * p.pulsePeriodUs as real == 0.5 ||
             us as real - dutyCycle * p.pulsePeriodUs as real == -0.5) ==> us % 2 == 0
  {
    RoundHalfEven(dutyCycle * p.pulsePeriodUs as real)
  }

  /** Pulse off-time in whole microseconds: the nearest, and the even one at a tie, as Python's round. */
  function PulseDelay(p: Profile, dutyCycle: real): (us: int)
    ensures -0.5 <= us as real - (1.0 - dutyCycle) * p.pulsePeriodUs as real <= 0.5
    ensures (us as real - (1.0 - dutyCycle) * p.pulsePeriodUs as real == 0.5 ||
             us as real - (1.0 - dutyCycle) * p.pulsePeriodUs as real == -0.5) ==> us % 2 == 0
  {
    RoundHalfEven((1.0 - dutyCycle) * p.pulsePeriodUs as real)
  }

  /** For an even pulse period the on-time and the off-time fill the period exactly, whatever the duty cycle. */
  lemma PulsePartition(p: Profile, dutyCycle: real)
    requires p.pulsePeriodUs % 2 == 0
    ensures PulseDuration(p, dutyCycle) + PulseDelay(p, dutyCycle) == p.pulsePeriodUs
  {
    ComplementScaled(dutyCycle, p.pulsePeriodUs);
  }

  function PulsesPerSweep(p: Profile): int { p.pulsesPerSweep }

  // -------------------------------------------------------- device positions

  /** The device X coordinate of a user X offset from the centre. */
  function XPosition(p: Profile, x: Length, flags: Flags): (r: Option<real>)
    ensures r.Some? <==> XToWasatchUnits(p, x, flags).Some?
    ensures r.Some? ==> r.value - CenterX(p) == XToWasatchUnits(p, x, flags).value
  {
    match XToWasatchUnits(p, x, flags)
    case None => None
    case Some(v) => Some(CenterX(p) + v)
  }

  /** The device Y coordinate of a user Y offset from the centre. */
  function YPosition(p: Profile, y: Length, flags: Flags): (r: Option<real>)
    ensures r.Some? <==> YToWasatchUnits(p, y, flags).Some?
    ensures r.Some? ==> r.value - CenterY(p) == YToWasatchUnits(p, y, flags).value
  {
    match YToWasatchUnits(p, y, flags)
    case None => None
    case Some(v) => Some(CenterY(p) + v)
  }

  predicate InX(p: Profile, v: real) { p.minX <= v <= p.maxX }

  predicate InY(p: Profile, v: real) { p.minY <= v <= p.maxY }

  /**
   * Centred conversion: 0 mm is the centre, and the positions of L and -L
   * are 2L millimetres of device units apart.
   */
  lemma CentredConversion(p: Profile, l: real)
    ensures XPosition(p, Length(0.0, Millimetre), []) == Some(CenterX(p))
    ensures XPosition(p, Length(l, Millimetre), []).value - XPosition(p, Length(-l, Millimetre), []).value == 2.0 * l * p.unitsPerMmX
    ensures YPosition(p, Length(0.0, Millimetre), []) == Some(CenterY(p))
    ensures YPosition(p, Length(l, Millimetre), []).value - YPosition(p, Length(-l, Millimetre), []).value == 2.0 * l * p.unitsPerMmY
  {
    assert Millimetres(Length(0.0, Millimetre)) == 0.0;
    assert !WasatchUnits([]);
    assert XToWasatchUnits(p, Length(0.0, Millimetre), []) == Some(0.0);
    assert YToWasatchUnits(p, Length(0.0, Millimetre), []) == Some(0.0);
    Spread(l, p.unitsPerMmX);
    Spread(l, p.unitsPerMmY);
  }

  /**
   * Bounds: a millimetre offset lands inside the X range exactly when it lies
   * within the reach on either side of the centre.
   */
  lemma XReach(p: Profile, x: real)
    requires ProfileOk(p)
    ensures InX(p, XPosition(p, Length(x, Millimetre), []).value) <==>
      -(CenterX(p) - p.minX) / p.unitsPerMmX <= x <= (p.maxX - CenterX(p)) / p.unitsPerMmX
  {
    var g := p.unitsPerMmX;
    var lo := -(CenterX(p) - p.minX) / g;
    var hi := (p.maxX - CenterX(p)) / g;
    assert lo * g == -(CenterX(p) - p.minX);
    assert hi * g == p.maxX - CenterX(p);
    if x < lo { assert x * g < lo * g; }
    if x > hi { assert x * g > hi * g; }
    if lo <= x <= hi { assert lo * g <= x * g <= hi * g; }
  }

  lemma YReach(p: Profile, y: real)
    requires ProfileOk(p)
    ensures InY(p, YPosition(p, Length(y, Millimetre), []).value) <==>
      -(CenterY(p) - p.minY) / p.unitsPerMmY <= y <= (p.maxY - CenterY(p)) / p.unitsPerMmY
  {
    var g := p.unitsPerMmY;
    var lo := -(CenterY(p) - p.minY) / g;
    var hi := (p.maxY - CenterY(p)) / g;
    assert lo * g == -(CenterY(p) - p.minY);
    assert hi * g == p.maxY - CenterY(p);
    if y < lo { assert y * g < lo * g; }
    if y > hi { assert y * g > hi * g; }
    if lo <= y <= hi { assert lo * g <= y * g <= hi * g; }
  }
}
