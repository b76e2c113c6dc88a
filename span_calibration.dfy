/**
 * The older, span-based calibration revision.  The gain on each axis is
 * the axis span divided by a 10 mm field; the centres are the midpoints of
 * the spans.  Its conversions first turn the argument into a plain float,
 * so they accept bare numbers only: a tagged quantity is refused.
 */
module SpanCalibration {
  import opened Wrappers
  import opened Units
  import opened Calibration

  const MinX := 5081.0
  const MaxX := 26032.0
  const MinY := 3492.0
  const MaxY := 24418.0
  /** The optical field that the span covers, in millimetres. */
  const FieldMm := 10.0

  const Span := Profile(MinX, MaxX, MinY, MaxY, (MaxX - MinX) / FieldMm, (MaxY - MinY) / FieldMm, 100, 100, 0.75, 3000.0)

  lemma SpanOk()
    ensures ProfileOk(Span)
  {
  }

  /** The centres are the span midpoints 15556.5 and 13955. */
  lemma SpanCentres()
    ensures CenterX(Span) == 15556.5 && CenterY(Span) == 13955.0
  {
  }

  /** The gains are 2095.1 and 2092.6 device units per millimetre. */
  lemma SpanGains()
    ensures Span.unitsPerMmX == 2095.1 && Span.unitsPerMmY == 2092.6
  {
  }

  /**
   * A conversion of this revision: the argument goes through float() first,
   * which refuses a tagged length; with the wasatchUnits flag the float is
   * returned, otherwise it is read as millimetres and scaled by span/field.
   */
  function SpanToWasatchUnits(x: Length, lo: real, hi: real, flags: Flags): (r: Option<real>)
    ensures r.None? <==> x.unit != BareLength
    ensures r.Some? && WasatchUnits(flags) ==> r.value == x.magnitude
    ensures r.Some? && !WasatchUnits(flags) ==> r.value * FieldMm == x.magnitude * (hi - lo)
  {
    if x.unit != BareLength then None
    else if WasatchUnits(flags) then Some(x.magnitude)
    else Some(x.magnitude * ((hi - lo) / FieldMm))
  }

  function XToWasatchUnits(x: Length, flags: Flags): Option<real>
  {
    SpanToWasatchUnits(x, MinX, MaxX, flags)
  }

  function YToWasatchUnits(y: Length, flags: Flags): Option<real>
  {
    SpanToWasatchUnits(y, MinY, MaxY, flags)
  }

  /** On bare numbers the span conversions agree with the generic conversions of the Span profile. */
  lemma SpanAgreesOnBare(v: real, flags: Flags)
    ensures XToWasatchUnits(Length(v, BareLength), flags).value == Calibration.XToWasatchUnits(Span, Length(v, BareLength), flags).value
    ensures YToWasatchUnits(Length(v, BareLength), flags).value == Calibration.YToWasatchUnits(Span, Length(v, BareLength), flags).value
    ensures XToWasatchUnits(Length(v, BareLength), flags).Some? && Calibration.XToWasatchUnits(Span, Length(v, BareLength), flags).Some?
    ensures YToWasatchUnits(Length(v, BareLength), flags).Some? && Calibration.YToWasatchUnits(Span, Length(v, BareLength), flags).Some?
  {
    var l := Length(v, BareLength);
    assert Millimetres(l) == v;
  }

  /** The 10 mm field maps exactly onto the span: conv(5 mm) - conv(-5 mm) == MAX - MIN. */
  lemma FieldCoversSpan(flags: Flags)
    requires !WasatchUnits(flags)
    ensures XToWasatchUnits(Length(5.0, BareLength), flags).value - XToWasatchUnits(Length(-5.0, BareLength), flags).value == MaxX - MinX
    ensures YToWasatchUnits(Length(5.0, BareLength), flags).value - YToWasatchUnits(Length(-5.0, BareLength), flags).value == MaxY - MinY
  {
  }

  /** With the wasatchUnits flag a bare number comes back unchanged. */
  lemma SpanWasatchUnitsIdentity(v: real, flags: Flags)
    requires WasatchUnits(flags)
    ensures XToWasatchUnits(Length(v, BareLength), flags).value == v
    ensures YToWasatchUnits(Length(v, BareLength), flags).value == v
  {
  }

  /** This revision's ToSeconds: float() first, so only a bare number (taken as seconds) is accepted. */
  function ToSeconds(t: Time): (r: Option<real>)
    ensures r.Some? <==> t.unit == BareTime
    ensures r.Some? ==> r.value == Calibration.ToSeconds(t)
  {
    if t.unit == BareTime then Some(t.magnitude) else None
  }
}
