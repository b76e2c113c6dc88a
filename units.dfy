/**
 * Quantities as the command layer receives them: a magnitude either bare (a
 * plain Python number, read as millimetres or seconds by the conversions) or
 * tagged with a unit.  Only the units the command layer names are modelled.
 * Flags are the string options ("wasatchUnits", "showSerial", "disableOutput")
 * that callers pass along as extra positional arguments.
 */
module Units {

  datatype LengthUnit = BareLength | Millimetre | Micrometre

  datatype Length = Length(magnitude: real, unit: LengthUnit)

  /** A plain Python number passed where a length is expected. */
  function Bare(v: real): Length { Length(v, BareLength) }

  datatype TimeUnit = BareTime | Second | Microsecond

  datatype Time = Time(magnitude: real, unit: TimeUnit)

  type Flags = seq<string>

  const WasatchUnitsFlag := "wasatchUnits"
  const ShowSerialFlag := "showSerial"
  const DisableOutputFlag := "disableOutput"

  predicate WasatchUnits(flags: Flags) { WasatchUnitsFlag in flags }

  predicate ShowSerial(flags: Flags) { ShowSerialFlag in flags }

  predicate DisableOutput(flags: Flags) { DisableOutputFlag in flags }

  /** Millimetres in one unit of u (a bare length counts as millimetres). */
  function MillimetresPer(u: LengthUnit): (r: real)
    ensures r > 0.0
  {
    match u
    case BareLength => 1.0
    case Millimetre => 1.0
    case Micrometre => 0.001
  }

  /** Seconds in one unit of u (a bare time counts as seconds). */
  function SecondsPer(u: TimeUnit): (r: real)
    ensures r > 0.0
  {
    match u
    case BareTime => 1.0
    case Second => 1.0
    case Microsecond => 0.000001
  }

  /** The length in millimetres: pint's l.to(millimeter).magnitude. */
  function Millimetres(l: Length): real
  {
    l.magnitude * MillimetresPer(l.unit)
  }

  /** The time in seconds: pint's t.to(seconds).magnitude. */
  function Seconds(t: Time): real
  {
    t.magnitude * SecondsPer(t.unit)
  }

  /** pint's l.to(u) for a tagged length. */
  function LengthTo(l: Length, u: LengthUnit): (r: Length)
    requires u != BareLength
    ensures r.unit == u
    ensures Millimetres(r) == Millimetres(l)
  {
    Length(Millimetres(l) / MillimetresPer(u), u)
  }

  /** pint's t.to(u) for a tagged time. */
  function TimeTo(t: Time, u: TimeUnit): (r: Time)
    requires u != BareTime
    ensures r.unit == u
    ensures Seconds(r) == Seconds(t)
  {
    Time(Seconds(t) / SecondsPer(u), u)
  }

  /** Unit identity: converting a tagged length to any unit and back gives the length itself. */
  lemma LengthRoundTrip(l: Length, u: LengthUnit)
    requires l.unit != BareLength && u != BareLength
    ensures LengthTo(LengthTo(l, u), l.unit) == l
  {
    var back := LengthTo(LengthTo(l, u), l.unit);
    assert Millimetres(back) == Millimetres(l);
    assert back.magnitude * MillimetresPer(l.unit) == l.magnitude * MillimetresPer(l.unit);
  }

  /** Unit identity for times. */
  lemma TimeRoundTrip(t: Time, u: TimeUnit)
    requires t.unit != BareTime && u != BareTime
    ensures TimeTo(TimeTo(t, u), t.unit) == t
  {
    var back := TimeTo(TimeTo(t, u), t.unit);
    assert Seconds(back) == Seconds(t);
    assert back.magnitude * SecondsPer(t.unit) == t.magnitude * SecondsPer(t.unit);
  }
}
