/**
 * Wasatch/Code/MCU/Wasatch_Tickmarks_Script.py: the script that burns the
 * alignment markers.  For a tick line through the intercepts (x, 0) and
 * (0, y) it computes the ends of two short ticks on that line, A→B beyond
 * the x intercept and C→D beyond the y intercept, each starting a clearance
 * d away from an axis.  It refuses ticks whose gap AD is too long or whose
 * line passes too close to the fiducial mark, and only then connects, burns
 * the fiducial at the centre, burns the two ticks, closes the port and
 * prints the commands for the volume scan.
 *
 * main() is modelled as the method Tickmarks, with the intercepts x and y
 * (hard-coded as 0.4 and 0.3 in the script) as parameters; everything else
 * the script fixes is a constant here.  np.sqrt(x*x+y*y) is the parameter s,
 * which the caller supplies together with the fact that it is that root.
 * What the script prints goes to the same console the interface prints to,
 * so the whole observable outcome is one Link.  The script's last call,
 * GCommand_PrintCMD_MultiParallel, is not part of this model: the run ends
 * just before it.
 *
 * The ticks and the volume printout go through the corrected ramp encoder
 * of McuMainCommands; TickRunAsWritten and VolumePrintsAsWritten give them
 * over the as-written one, which subtracts the start offset and checks
 * nothing.
 */
module TickmarksScript {
  import opened Units
  import opened Rounding
  import opened WireFormat
  import opened Calibration
  import opened McuCalibration
  import opened Transport
  import opened Segments
  import opened FlaggedSerial
  import opened SerialCommands
  import opened McuMainCommands

  /** d: the ticks' clearance from the axes, in millimetres. */
  const Clearance := 0.25
  /** l: the length of each tick. */
  const MarkerSize := 1.0
  /** How far the galvos run past the end of a line. */
  const LaserOvershoot := 0.15
  /** The fiducial's vertical lines (along Y), in units of the scale. */
  const FiducialVRatios: seq<real> := [-1.0, 0.0, 2.0]
  /** The fiducial's horizontal lines (along X). */
  const FiducialHRatios: seq<real> := [-1.0, 1.0]
  /** The fiducial's smallest line separation. */
  const FiducialScale := 0.05
  /** The longest gap AD the script accepts. */
  const MaxAD := 1.2

  /** s is the non-negative square root of x² + y². */
  predicate IsRoot(x: real, y: real, s: real) { s >= 0.0 && s * s == x * x + y * y }

  // ------------------------------------------------------------ geometry

  /** The four tick ends: A→B is the tick near the x axis, C→D the one near the y axis. */
  datatype Ticks = Ticks(a: Point, b: Point, c: Point, d: Point)

  /** The tick ends (41-49). */
  function TickPoints(x: real, y: real, s: real): Ticks
    requires x != 0.0 && y != 0.0 && s != 0.0
  {
    var d, l := Clearance, MarkerSize;
    Ticks(Point(x * (1.0 + d / y), -d),
          Point(x * (1.0 + d / y + l / s), -d - l * y / s),
          Point(-d - l * x / s, y * (1.0 + d / x + l / s)),
          Point(-d, y * (1.0 + d / x)))
  }

  /** p lies on the line through (x, 0) and (0, y). */
  predicate OnInterceptLine(x: real, y: real, p: Point)
    requires x != 0.0 && y != 0.0
  {
    p.x / x + p.y / y == 1.0
  }

  /**
   * The tick ends lie on the intercept line; A is its point a clearance d
   * below the x axis and D its point a clearance d left of the y axis.
   */
  lemma TickAnchors(x: real, y: real, s: real)
    requires x != 0.0 && y != 0.0 && s != 0.0
    ensures var t := TickPoints(x, y, s);
      OnInterceptLine(x, y, t.a) && OnInterceptLine(x, y, t.b) &&
      OnInterceptLine(x, y, t.c) && OnInterceptLine(x, y, t.d) &&
      t.a.y == -Clearance && t.d.x == -Clearance
  {
    var t := TickPoints(x, y, s);
    var d, l := Clearance, MarkerSize;
    assert t.a.x / x == 1.0 + d / y;
    assert t.b.x / x == 1.0 + d / y + l / s;
    assert t.b.y / y == -d / y - l / s;
    assert t.c.x / x == -d / x - l / s;
    assert t.c.y / y == 1.0 + d / x + l / s;
    assert t.d.y / y == 1.0 + d / x;
  }

  /**
   * Each tick runs l along the line, away from the axes: B − A = l·(x, −y)/s
   * and C − D = l·(−x, y)/s, so both ticks are exactly l long.
   */
  lemma TickLengths(x: real, y: real, s: real)
    requires IsRoot(x, y, s) && x != 0.0 && y != 0.0 && s != 0.0
    ensures var t := TickPoints(x, y, s);
      t.b.x - t.a.x == x * (MarkerSize / s) && t.b.y - t.a.y == -(y * (MarkerSize / s)) &&
      t.c.x - t.d.x == -(x * (MarkerSize / s)) && t.c.y - t.d.y == y * (MarkerSize / s) &&
      Square(t.b.x - t.a.x) + Square(t.b.y - t.a.y) == MarkerSize * MarkerSize &&
      Square(t.c.x - t.d.x) + Square(t.c.y - t.d.y) == MarkerSize * MarkerSize
  {
    var q := MarkerSize / s;
    assert q * s == MarkerSize;
    SquaredLength(x, y, s, q);
  }

  function Square(v: real): real { v * v }

  /** A step of q·(x, ∓y) along a line is q·s long, whatever its sign. */
  lemma SquaredLength(x: real, y: real, s: real, q: real)
    requires s * s == x * x + y * y
    ensures Square(x * q) + Square(-(y * q)) == Square(q * s)
    ensures Square(-(x * q)) + Square(y * q) == Square(q * s)
  {
    calc {
      Square(x * q) + Square(-(y * q));
      q * q * (x * x + y * y);
      q * q * (s * s);
      Square(q * s);
    }
  }

  // -------------------------------------------------------------- aborts

  /** AD (53): the distance from A to D, less the overshoot at both ends. */
  function ADLength(x: real, y: real, s: real): real
    requires x != 0.0 && y != 0.0
  {
    s * (1.0 + Clearance * (1.0 / x + 1.0 / y)) - LaserOvershoot * 2.0
  }

  /** AD with the two overshoots added back is the distance between the tick ends A and D. */
  lemma ADIsTickGap(x: real, y: real, s: real)
    requires IsRoot(x, y, s) && x != 0.0 && y != 0.0 && s != 0.0
    ensures var t := TickPoints(x, y, s);
      Square(t.a.x - t.d.x) + Square(t.a.y - t.d.y) == Square(ADLength(x, y, s) + 2.0 * LaserOvershoot)
  {
    var t := TickPoints(x, y, s);
    var k := 1.0 + Clearance * (1.0 / x + 1.0 / y);
    assert t.a.x - t.d.x == x * k;
    assert t.a.y - t.d.y == -(y * k);
    assert ADLength(x, y, s) + 2.0 * LaserOvershoot == k * s;
    SquaredLength(x, y, s, k);
  }

  /** Python's max over a non-empty list. */
  function Max(r: seq<real>): (m: real)
    requires |r| > 0
    ensures m in r
    ensures forall i :: 0 <= i < |r| ==> r[i] <= m
  {
    if |r| == 1 then r[0]
    else
      var rest := Max(r[1..]);
      assert forall i :: 1 <= i < |r| ==> r[i] == r[1..][i - 1];
      if r[0] >= rest then r[0] else rest
  }

  /** The x of the fiducial's outermost vertical line, and the y of its top horizontal line. */
  function FiducialReachX(): real { Max(FiducialVRatios) * FiducialScale }
  function FiducialReachY(): real { Max(FiducialHRatios) * FiducialScale }

  /** The interference check (59). */
  predicate TooClose(x: real, y: real)
    requires x != 0.0
  {
    y - y / x * FiducialReachX() < FiducialReachY()
  }

  /**
   * The check asks whether the tick line crosses the fiducial's outermost
   * vertical line (x = 0.1) below its top horizontal line (y = 0.05).
   */
  lemma TooCloseMeaning(x: real, y: real)
    requires x != 0.0 && y != 0.0
    ensures FiducialReachX() == 0.1 && FiducialReachY() == 0.05
    ensures var v := y - y / x * FiducialReachX();
      OnInterceptLine(x, y, Point(FiducialReachX(), v)) && (TooClose(x, y) <==> v < FiducialReachY())
  {
    assert Max(FiducialVRatios) == 2.0 by {
      assert FiducialVRatios[2] == 2.0;
    }
    assert Max(FiducialHRatios) == 1.0 by {
      assert FiducialHRatios[1] == 1.0;
    }
    var v := y - y / x * 0.1;
    var w := 1.0 - 0.1 / x;
    assert v == y * w;
    assert v / y == w;
  }

  // ------------------------------------------------------- "%f" printing

  function Pow10(k: nat): (p: nat)
    ensures p > 0
  {
    if k == 0 then 1 else 10 * Pow10(k - 1)
  }

  /** The last k decimal digits of f, leading zeros kept. */
  function Digits(f: nat, k: nat): (t: string)
    ensures |t| == k
    ensures forall i :: 0 <= i < |t| ==> IsDigit(t[i])
  {
    if k == 0 then "" else Digits(f / 10, k - 1) + [DigitChar(f % 10)]
  }

  lemma {:induction false} DigitsValue(f: nat, k: nat)
    requires f < Pow10(k)
    ensures ParseBase(Digits(f, k), 10) == f
  {
    if k > 0 {
      var t := Digits(f, k);
      assert t[..|t| - 1] == Digits(f / 10, k - 1);
      DigitRoundTrip(f % 10);
      DigitsValue(f / 10, k - 1);
    }
  }

  /** |v| in millionths, rounded as "%f" rounds. */
  function Millionths(v: real): nat
  {
    RoundHalfEven(if v < 0.0 then -v * 1000000.0 else v * 1000000.0)
  }

  /** Python's "%f" % v: the sign, the whole part, a point and six decimals. */
  function FixedSix(v: real): string
  {
    (if v < 0.0 then "-" else "") + Unsigned(Millionths(v))
  }

  /** n millionths written out: the whole part, a point and six decimals. */
  function Unsigned(n: nat): string
  {
    NatToBase(n / 1000000, 10) + "." + Digits(n % 1000000, 6)
  }

  /** The number a "%f" text denotes. */
  function ReadFixed(t: string): real
  {
    var neg := |t| > 0 && t[0] == '-';
    var body := if neg then t[1..] else t;
    if |body| < 7 then 0.0
    else
      var v := ParseBase(body[..|body| - 7], 10) as real + ParseBase(body[|body| - 6..], 10) as real / 1000000.0;
      if neg then -v else v
  }

  /** The unsigned text has its point seventh from the end, and denotes n millionths. */
  lemma UnsignedReadsBack(n: nat)
    ensures var u := Unsigned(n); |u| >= 8 && u[|u| - 7] == '.' && u[0] != '-'
    ensures var u := Unsigned(n);
      ParseBase(u[..|u| - 7], 10) as real + ParseBase(u[|u| - 6..], 10) as real / 1000000.0 == n as real / 1000000.0
  {
    var q, r := n / 1000000, n % 1000000;
    var w, f := NatToBase(q, 10), Digits(r, 6);
    var u := Unsigned(n);
    assert u[..|u| - 7] == w;
    assert u[|u| - 6..] == f;
    ParseNatToBase(q, 10);
    DigitsValue(r, 6);
    assert q * 1000000 + r == n;
  }

  /** The printed AD reads back within half a millionth of its value, with the point seventh from the end. */
  lemma FixedSixReadsBack(v: real)
    ensures var t := FixedSix(v); |t| >= 8 && t[|t| - 7] == '.'
    ensures -0.0000005 <= ReadFixed(FixedSix(v)) - v <= 0.0000005
  {
    var n := Millionths(v);
    var u := Unsigned(n);
    var t := FixedSix(v);
    UnsignedReadsBack(n);
    if v < 0.0 {
      assert t[0] == '-' && t[1..] == u;
      assert ReadFixed(t) == -(n as real / 1000000.0);
    } else {
      assert t == u;
      assert ReadFixed(t) == n as real / 1000000.0;
    }
  }

  // -------------------------------------------------------------- script

  /**
   * How main() ends: a division by zero in lines 42-53 (x, y or the root is
   * 0), one of the two aborts, an exception once connected, or the run to
   * the parallel-scan printout.
   */
  datatype Outcome = DivisionByZero | ADTooLongAbort | TooCloseAbort | Raised | Drawn

  const TooCloseText := "x,y intercepts are too close to the origin, might interfere with fiducial marker"
  const Starting := "Starting"
  const Closing: seq<string> := ["Done!", "Scan Volume Parameters", "When opening wasatch write command 'stop' to stop the laser"]
  const ParallelHeading := "Parameters for scanning parallel to ticmarks"

  /** The abort message of line 54. */
  function ADText(ad: real): string
  {
    "AD Length [mm] " + FixedSix(ad) + " Recomended to be <1.2[mm]"
  }

  /** print: the lines are added to the console. */
  function Printed(k: Link, lines: seq<string>): Link
  {
    k.(console := k.console + lines)
  }

  /** Lines 64-65: the interface as it is after it has looked for the galvo and "Starting" is printed. */
  function Started(env: Environment): Link
  {
    Printed(Reconnect(Flagged, env, Initial).0, [Starting])
  }

  /** Line 69: a 5 mm fiducial at the centre, one second a line. */
  function FiducialSteps(): seq<Step>
  {
    BleachFiducialSteps(0.0, 0.0, 5.0, FiducialScale, FiducialVRatios, FiducialHRatios, Time(1.0, BareTime), [])
  }

  /** Line 50: a second for every 5 mm of tick. */
  function Exposure(): Time { Time(MarkerSize / 5.0 * 1.0, BareTime) }

  /** Lines 74-75: one tick, from p to q, for the exposure. */
  function TickSteps(p: Point, q: Point): seq<Step>
  {
    BleachLineSteps(Bare(p.x), Bare(p.y), Bare(q.x), Bare(q.y), Exposure(), [])
  }

  /** Line 84: the volume scan command for the 2 mm square about the centre, ten B-scans. */
  function VolumePrintout(): Printout
  {
    PrintVolumetricScan(Bare(-1.0), Bare(-1.0), Bare(1.0), Bare(1.0), 10, [])
  }

  /** A tick from p to q has both ends in the MCU workspace. */
  predicate TickInWorkspace(p: Point, q: Point)
  {
    XRampInBounds(Mcu, Bare(p.x), Bare(q.x), []) && YRampInBounds(Mcu, Bare(p.y), Bare(q.y), [])
  }

  /** What main() does, up to the parallel-scan printout: its outcome and what the world then shows. */
  function ScriptRun(env: Environment, x: real, y: real, s: real): (Outcome, Link)
    requires IsRoot(x, y, s)
  {
    if x == 0.0 || y == 0.0 || s == 0.0 then (DivisionByZero, Initial)
    else if ADLength(x, y, s) > MaxAD then (ADTooLongAbort, Printed(Initial, [ADText(ADLength(x, y, s))]))
    else if TooClose(x, y) then (TooCloseAbort, Printed(Initial, [TooCloseText]))
    else Burn(Started(env), TickPoints(x, y, s))
  }

  /** Lines 69-87 from the started interface: the fiducial, then the ticks. */
  function Burn(k0: Link, t: Ticks): (Outcome, Link)
  {
    var r := Exec(Flagged, k0, FiducialSteps(), []);
    if !r.1 then (Raised, r.0) else BurnTicks(r.0, t)
  }

  /** Lines 74-75: the tick A→B, then the tick C→D, then the rest. */
  function BurnTicks(k1: Link, t: Ticks): (Outcome, Link)
  {
    var r := Exec(Flagged, k1, TickSteps(t.a, t.b), []);
    if !r.1 then (Raised, r.0)
    else
      var r' := Exec(Flagged, r.0, TickSteps(t.c, t.d), []);
      if !r'.1 then (Raised, r'.0) else Finish(r'.0)
  }

  /** Lines 78-86: close, then the printed lines. */
  function Finish(k3: Link): (Outcome, Link)
  {
    var r := Close(k3);
    if !r.1 then (Raised, r.0)
    else
      var p := VolumePrintout();
      var k := Printed(r.0, Closing + p.lines);
      if !p.finished then (Raised, k) else (Drawn, Printed(k, [ParallelHeading]))
  }

  /** print(line) while the interface exists: the line joins the interface's console. */
  method Say(mc: DirectSerial, lines: seq<string>)
    modifies mc
    ensures mc.Snapshot() == Printed(old(mc.Snapshot()), lines)
  {
    mc.console := mc.console + lines;
  }

  /** main() (21-87), ending before GCommand_PrintCMD_MultiParallel. */
  method Tickmarks(env: Environment, x: real, y: real, s: real) returns (outcome: Outcome, world: Link)
    requires IsRoot(x, y, s)
    ensures (outcome, world) == ScriptRun(env, x, y, s)
  {
    if x == 0.0 || y == 0.0 || s == 0.0 {
      return DivisionByZero, Initial;
    }
    var t := TickPoints(x, y, s);
    var ad := ADLength(x, y, s);
    if ad > MaxAD {
      return ADTooLongAbort, Printed(Initial, [ADText(ad)]);
    }
    if TooClose(x, y) {
      return TooCloseAbort, Printed(Initial, [TooCloseText]);
    }
    var mc := new DirectSerial(env);
    Say(mc, [Starting]);
    var ok := BleachFiducial(mc, 0.0, 0.0, 5.0, FiducialScale, FiducialVRatios, FiducialHRatios, Time(1.0, BareTime), []);
    if !ok {
      return Raised, mc.Snapshot();
    }
    ok := BleachLine(mc, Bare(t.a.x), Bare(t.a.y), Bare(t.b.x), Bare(t.b.y), Exposure(), []);
    if !ok {
      return Raised, mc.Snapshot();
    }
    ok := BleachLine(mc, Bare(t.c.x), Bare(t.c.y), Bare(t.d.x), Bare(t.d.y), Exposure(), []);
    if !ok {
      return Raised, mc.Snapshot();
    }
    ok := mc.Close();
    if !ok {
      return Raised, mc.Snapshot();
    }
    var p := VolumePrintout();
    Say(mc, Closing + p.lines);
    if !p.finished {
      return Raised, mc.Snapshot();
    }
    Say(mc, [ParallelHeading]);
    outcome, world := Drawn, mc.Snapshot();
  }

  // ---------------------------------------------------------- properties

  /**
   * The checks come before the connection: a zero divisor raises with
   * nothing printed, a long AD or a line near the fiducial prints its one
   * message, and in all three cases no port was looked for or written.
   */
  lemma ScriptAborts(env: Environment, x: real, y: real, s: real)
    requires IsRoot(x, y, s)
    ensures var r := ScriptRun(env, x, y, s);
      var nonzero := x != 0.0 && y != 0.0 && s != 0.0;
      (r.0 == DivisionByZero <==> !nonzero) &&
      (r.0 == ADTooLongAbort <==> nonzero && ADLength(x, y, s) > MaxAD) &&
      (r.0 == TooCloseAbort <==> nonzero && ADLength(x, y, s) <= MaxAD && TooClose(x, y)) &&
      (r.0 == DivisionByZero ==> r.1.console == []) &&
      (r.0 == ADTooLongAbort ==> r.1.console == [ADText(ADLength(x, y, s))]) &&
      (r.0 == TooCloseAbort ==> r.1.console == [TooCloseText]) &&
      (r.0 == DivisionByZero || r.0 == ADTooLongAbort || r.0 == TooCloseAbort ==>
        r.1.wire == [] && r.1.port == NoPort && !r.1.connected && r.1.elapsed == 0.0)
  {
    if x != 0.0 && y != 0.0 && s != 0.0 && ADLength(x, y, s) <= MaxAD && !TooClose(x, y) {
      BurnOutcome(Started(env), TickPoints(x, y, s));
    }
  }

  /** Once connected, the script either raises or runs to the end. */
  lemma BurnOutcome(k0: Link, t: Ticks)
    ensures Burn(k0, t).0 == Raised || Burn(k0, t).0 == Drawn
  {
    var r := Exec(Flagged, k0, FiducialSteps(), []);
    if r.1 {
      BurnTicksOutcome(r.0, t);
    }
  }

  lemma BurnTicksOutcome(k1: Link, t: Ticks)
    ensures BurnTicks(k1, t).0 == Raised || BurnTicks(k1, t).0 == Drawn
  {
    var r2 := Exec(Flagged, k1, TickSteps(t.a, t.b), []);
    if r2.1 {
      var r3 := Exec(Flagged, r2.0, TickSteps(t.c, t.d), []);
      if r3.1 {
        assert Finish(r3.0).0 == Raised || Finish(r3.0).0 == Drawn;
      }
    }
  }

  /** Every fiducial and tick coordinate within 2.5 mm of the centre is inside the MCU workspace. */
  lemma SegmentInField(p: Point, q: Point)
    requires -2.5 <= p.x <= 2.5 && -2.5 <= p.y <= 2.5 && -2.5 <= q.x <= 2.5 && -2.5 <= q.y <= 2.5
    ensures TickInWorkspace(p, q)
  {
    BarePosition(p.x);
    BarePosition(p.y);
    BarePosition(q.x);
    BarePosition(q.y);
  }

  /** The fiducial's forty commands all encode and all its delays can be slept. */
  lemma FiducialRunnable()
    ensures Runnable(Flagged, FiducialSteps())
  {
    var duration := Time(1.0, BareTime);
    var draw := NTimesLine(duration, []);
    var hs := HorizontalLines(0.0, 0.0, 5.0, FiducialScale, FiducialHRatios);
    var vs := VerticalLines(0.0, 0.0, 5.0, FiducialScale, FiducialVRatios);
    FiducialExample();
    forall i | 0 <= i < |hs| ensures Runnable(Flagged, draw(hs[i])) {
      var g := hs[i];
      SegmentInField(Point(g.x0, g.y0), Point(g.x1, g.y1));
      NTimesOnceRunnable(Bare(g.x0), Bare(g.y0), Bare(g.x1), Bare(g.y1), duration, []);
    }
    forall i | 0 <= i < |vs| ensures Runnable(Flagged, draw(vs[i])) {
      var g := vs[i];
      SegmentInField(Point(g.x0, g.y0), Point(g.x1, g.y1));
      NTimesOnceRunnable(Bare(g.x0), Bare(g.y0), Bare(g.x1), Bare(g.y1), duration, []);
    }
    EachRunnable(Flagged, hs, draw);
    EachRunnable(Flagged, vs, draw);
    RunnableAppend(Flagged, Each(hs, draw), Each(vs, draw));
  }

  /**
   * On an open port the fiducial always finishes: every line reaches the
   * port in order, nothing is echoed, and it takes five seconds.
   */
  lemma FiducialRun(k: Link)
    requires Usable(k.port)
    ensures var r := Exec(Flagged, k, FiducialSteps(), []);
      r.1 && r.0.wire == k.wire + Delivered(k.port.id, FiducialSteps()) &&
      r.0.port == k.port && r.0.connected == k.connected &&
      r.0.console == k.console && r.0.elapsed == k.elapsed + 5.0
  {
    FiducialRunnable();
    ExecAll(Flagged, k, FiducialSteps(), []);
    ExecCompleteConsole(Flagged, k, FiducialSteps(), []);
    ExecKeepsPort(Flagged, k, FiducialSteps(), []);
    FiducialDelay();
  }

  /** Five lines of a second each. */
  lemma FiducialDelay()
    ensures TotalDelay(Flagged, FiducialSteps()) == 5.0
  {
    FiducialCalls(0.0, 0.0, 5.0, FiducialScale, FiducialVRatios, FiducialHRatios, Time(1.0, BareTime), [], 0);
    RepeatedIsProduct(5, 1.0);
  }

  /** With no open port the fiducial's first send raises, and the script with it. */
  lemma FiducialNeedsPort(k: Link)
    requires !Usable(k.port)
    ensures !Exec(Flagged, k, FiducialSteps(), []).1
  {
    FiducialCalls(0.0, 0.0, 5.0, FiducialScale, FiducialVRatios, FiducialHRatios, Time(1.0, BareTime), [], 0);
    if Exec(Flagged, k, FiducialSteps(), []).1 {
      ExecNeedsPort(Flagged, k, FiducialSteps(), []);
    }
  }

  /**
   * A tick on an open port finishes exactly when both its ends are in the
   * workspace; then its six lines reach the port and it takes the exposure.
   */
  lemma TickRun(k: Link, p: Point, q: Point)
    requires Usable(k.port)
    ensures var r := Exec(Flagged, k, TickSteps(p, q), []);
      (r.1 <==> TickInWorkspace(p, q)) &&
      r.0.port == k.port && r.0.connected == k.connected &&
      (r.1 ==> r.0.wire == k.wire + Delivered(k.port.id, TickSteps(p, q)) &&
               r.0.console == k.console && r.0.elapsed == k.elapsed + 0.2)
  {
    BleachLineRun(k, Bare(p.x), Bare(p.y), Bare(q.x), Bare(q.y), Exposure(), []);
    ExecKeepsPort(Flagged, k, TickSteps(p, q), []);
    if Exec(Flagged, k, TickSteps(p, q), []).1 {
      ExecCompleteConsole(Flagged, k, TickSteps(p, q), []);
    }
  }

  /** Lines 74-75 as written: the tick through the as-written ramp encoder. */
  function TickStepsAsWritten(p: Point, q: Point): seq<Step>
  {
    BleachLineStepsAsWritten(Bare(p.x), Bare(p.y), Bare(q.x), Bare(q.y), Exposure(), [])
  }

  /**
   * As written, a tick on an open port always finishes, wherever its ends
   * lie; its six lines reach the port and it takes the exposure.
   */
  lemma TickRunAsWritten(k: Link, p: Point, q: Point)
    requires Usable(k.port)
    ensures var r := Exec(Flagged, k, TickStepsAsWritten(p, q), []);
      r.1 && r.0.wire == k.wire + Delivered(k.port.id, TickStepsAsWritten(p, q)) && r.0.elapsed == k.elapsed + 0.2
  {
    BleachLineRunAsWritten(k, Bare(p.x), Bare(p.y), Bare(q.x), Bare(q.y), Exposure(), []);
  }

  /** Line 84 as written: the volume scan command through the as-written ramp encoder. */
  function VolumePrintoutAsWritten(): Printout
  {
    PrintVolumetricScanAsWritten(Bare(-1.0), Bare(-1.0), Bare(1.0), Bare(1.0), 10, [])
  }

  /** As written, the closing printout's ramp line is xy_ramp 17257 17257 17207 17207 10. */
  lemma VolumePrintsAsWritten()
    ensures VolumePrintoutAsWritten().finished
    ensures VolumePrintoutAsWritten().lines ==
      [VolumetricIntro, Render(Command("xy_ramp", [17257, 17257, 17207, 17207, 10])), VolumetricOutro]
  {
    VolumetricExampleAsWritten();
  }

  /**
   * Once both checks pass, the script runs to the end exactly when the port
   * search leaves a port open and both ticks lie in the workspace.  The
   * search leaves a port open when the galvo answered, and also when a port
   * opened and did not answer (ScanFailureLeavesOpen).  The script then
   * sends the fiducial, the tick A→B and the tick C→D, in that order, on the
   * open port, closes it, prints the closing lines and the volume scan
   * command, and has slept 5 s for the fiducial and 0.2 s for each tick.
   */
  lemma ScriptDraws(env: Environment, x: real, y: real, s: real)
    requires IsRoot(x, y, s) && x != 0.0 && y != 0.0 && s != 0.0
    requires ADLength(x, y, s) <= MaxAD && !TooClose(x, y)
    ensures var r := ScriptRun(env, x, y, s);
      var k0 := Started(env);
      var t := TickPoints(x, y, s);
      (r.0 == Drawn || r.0 == Raised) &&
      (r.0 == Drawn <==> Usable(k0.port) && TickInWorkspace(t.a, t.b) && TickInWorkspace(t.c, t.d)) &&
      (r.0 == Drawn ==>
        r.1.wire == k0.wire + Delivered(k0.port.id, FiducialSteps()) +
                    Delivered(k0.port.id, TickSteps(t.a, t.b)) + Delivered(k0.port.id, TickSteps(t.c, t.d)) &&
        r.1.port == Port(k0.port.id, false) && r.1.connected == k0.connected &&
        r.1.console == k0.console + Closing + VolumePrintout().lines + [ParallelHeading] &&
        r.1.elapsed == k0.elapsed + 5.4)
  {
    var k0 := Started(env);
    var t := TickPoints(x, y, s);
    if Usable(k0.port) {
      FiducialRun(k0);
      TicksRun(Exec(Flagged, k0, FiducialSteps(), []).0, t);
    } else {
      FiducialNeedsPort(k0);
    }
  }

  /**
   * From an open port, the ticks and the rest finish exactly when both ticks
   * are in the workspace, sending the two ticks in order and closing the port.
   */
  lemma TicksRun(k1: Link, t: Ticks)
    requires Usable(k1.port)
    ensures var r := BurnTicks(k1, t);
      (r.0 == Drawn || r.0 == Raised) &&
      (r.0 == Drawn <==> TickInWorkspace(t.a, t.b) && TickInWorkspace(t.c, t.d)) &&
      (r.0 == Drawn ==>
        r.1.wire == k1.wire + Delivered(k1.port.id, TickSteps(t.a, t.b)) + Delivered(k1.port.id, TickSteps(t.c, t.d)) &&
        r.1.port == Port(k1.port.id, false) && r.1.connected == k1.connected &&
        r.1.console == k1.console + Closing + VolumePrintout().lines + [ParallelHeading] &&
        r.1.elapsed == k1.elapsed + 0.4)
  {
    TickRun(k1, t.a, t.b);
    var r2 := Exec(Flagged, k1, TickSteps(t.a, t.b), []);
    if r2.1 {
      TickRun(r2.0, t.c, t.d);
      var r3 := Exec(Flagged, r2.0, TickSteps(t.c, t.d), []);
      if r3.1 {
        FinishRun(r3.0);
      }
    }
  }

  /** Closing a port that exists always works, and the volume scan command always prints. */
  lemma FinishRun(k3: Link)
    requires k3.port.Port?
    ensures var r := Finish(k3);
      r.0 == Drawn && r.1.wire == k3.wire && r.1.port == Port(k3.port.id, false) && r.1.connected == k3.connected &&
      r.1.console == k3.console + Closing + VolumePrintout().lines + [ParallelHeading] && r.1.elapsed == k3.elapsed
  {
    VolumePrints();
    var r := Close(k3);
    assert r.1 && r.0 == k3.(port := Port(k3.port.id, false));
    var k := Printed(r.0, Closing + VolumePrintout().lines);
    assert Finish(k3) == (Drawn, Printed(k, [ParallelHeading]));
  }

  /** The volume scan of the script's closing printout finishes. */
  lemma VolumePrints()
    ensures VolumePrintout().finished
  {
    VolumetricExample();
  }

  /**
   * The script's own intercepts, x = 0.4 and y = 0.3 (root 0.5): the ticks run
   * from (11/15, -0.25) to (23/15, -0.85) and from (-1.05, 1.0875) to
   * (-0.25, 0.4875), AD is 223/240 mm, both checks pass, and the run reaches
   * the end exactly when the port search leaves a port open.
   */
  lemma ScriptExample(env: Environment)
    ensures IsRoot(0.4, 0.3, 0.5)
    ensures TickPoints(0.4, 0.3, 0.5) ==
      Ticks(Point(11.0 / 15.0, -0.25), Point(23.0 / 15.0, -0.85), Point(-1.05, 1.0875), Point(-0.25, 0.4875))
    ensures ADLength(0.4, 0.3, 0.5) == 223.0 / 240.0 && !TooClose(0.4, 0.3)
    ensures ScriptRun(env, 0.4, 0.3, 0.5).0 == Drawn <==> Usable(Started(env).port)
  {
    TooCloseMeaning(0.4, 0.3);
    ExampleTicks();
    var t := TickPoints(0.4, 0.3, 0.5);
    SegmentInField(t.a, t.b);
    SegmentInField(t.c, t.d);
    ScriptDraws(env, 0.4, 0.3, 0.5);
  }

  /**
   * With no galvo the script still runs to the end: when no port answers
   * and the last port probed opens, the search fails and leaves that port
   * open, the connected flag stays false, and the fiducial and ticks are
   * sent to that port.
   */
  lemma ScriptDrawsWithoutGalvo(env: Environment, x: real, y: real, s: real)
    requires IsRoot(x, y, s) && x != 0.0 && y != 0.0 && s != 0.0
    requires ADLength(x, y, s) <= MaxAD && !TooClose(x, y)
    requires env.ports > 0 && env.probe(Attempts - 1, env.ports - 1).Opens? && !AnswerFrom(env, 0, 0)
    requires TickInWorkspace(TickPoints(x, y, s).a, TickPoints(x, y, s).b)
    requires TickInWorkspace(TickPoints(x, y, s).c, TickPoints(x, y, s).d)
    ensures !Reconnect(Flagged, env, Initial).1 && !Started(env).connected
    ensures Started(env).port == Port(env.ports - 1, true)
    ensures ScriptRun(env, x, y, s).0 == Drawn
  {
    ScanFailureLeavesOpen(Flagged, env, Initial.(console := Initial.console + [Looking]), 0, 0);
    ScriptDraws(env, x, y, s);
  }

  /**
   * The script's own intercepts with one port that opens and always replies
   * "B": no galvo is found, and the script runs to the end on that port.
   */
  lemma ScriptWithoutGalvoExample()
    ensures var env := Environment(1, (a: nat, p: nat) => Opens("B"));
      !Reconnect(Flagged, env, Initial).1 && ScriptRun(env, 0.4, 0.3, 0.5).0 == Drawn
  {
    var env := Environment(1, (a: nat, p: nat) => Opens("B"));
    assert !AnswerFrom(env, 0, 0);
    ScriptExample(env);
    ScanFailureLeavesOpen(Flagged, env, Initial.(console := Initial.console + [Looking]), 0, 0);
  }

  lemma ExampleTicks()
    ensures TickPoints(0.4, 0.3, 0.5) ==
      Ticks(Point(11.0 / 15.0, -0.25), Point(23.0 / 15.0, -0.85), Point(-1.05, 1.0875), Point(-0.25, 0.4875))
  {
    var t := TickPoints(0.4, 0.3, 0.5);
    assert t.a == Point(11.0 / 15.0, -0.25) && t.b == Point(23.0 / 15.0, -0.85);
    assert t.c == Point(-1.05, 1.0875) && t.d == Point(-0.25, 0.4875);
  }

  /**
   * Intercepts 0.6 and 0.8 (root 1) give AD = 343/240 mm, printed as
   * 1.429167, and the script stops with its message.
   */
  lemma ScriptTooLongExample(env: Environment)
    ensures IsRoot(0.6, 0.8, 1.0)
    ensures ADLength(0.6, 0.8, 1.0) == 343.0 / 240.0 && FixedSix(343.0 / 240.0) == "1.429167"
    ensures ScriptRun(env, 0.6, 0.8, 1.0) == (ADTooLongAbort, Printed(Initial, [ADText(343.0 / 240.0)]))
  {
    assert ADLength(0.6, 0.8, 1.0) == 343.0 / 240.0;
    FixedSixExample();
  }

  lemma FixedSixExample()
    ensures FixedSix(343.0 / 240.0) == "1.429167"
  {
    MillionthsExample();
    UnsignedExample();
  }

  lemma MillionthsExample()
    ensures Millionths(343.0 / 240.0) == 1429167
  {
    RoundUnique(343.0 / 240.0 * 1000000.0, 1429167);
  }

  lemma UnsignedExample()
    ensures Unsigned(1429167) == "1.429167"
  {
    assert NatToBase(1, 10) == "1";
    assert Digits(429167, 6) == "429167";
  }
}
