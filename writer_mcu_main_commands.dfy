/**
 * WasatchWritter/Code/MCU/Wasatch_Main_Commands.py: the earlier MCU
 * revision of the drawing procedures.  Its GCommand_BleachLine (51-61) is
 * the same series of sends as the newer revision's, so it is
 * McuMainCommands.BleachLine, and its TutorialVolumetricScan (155-158) prints
 * what McuMainCommands.PrintVolumetricScan prints.  What differs is the
 * fiducial: every line is one BleachLine rather than a BleachLineNTimes, and
 * the ratio lists come as xRatios (vertical lines) then yRatios (horizontal).
 */
module WriterMcuMainCommands {
  import opened Units
  import opened Calibration
  import opened Transport
  import opened Segments
  import opened FlaggedSerial
  import opened McuMainCommands

  /** One fiducial line: BleachLine once over the segment. */
  function LineDraw(duration: Time, flags: Flags): Segment -> seq<Step>
  {
    (s: Segment) => BleachLineSteps(Bare(s.x0), Bare(s.y0), Bare(s.x1), Bare(s.y1), duration, flags)
  }

  /** GCommand_BleachFiducial (109-121): the yRatios lines across, in list order, then the xRatios lines up. */
  function FiducialSteps(centerX: real, centerY: real, markWidth: real, gap: real,
                         xRatios: seq<real>, yRatios: seq<real>, duration: Time, flags: Flags): seq<Step>
  {
    Each(HorizontalLines(centerX, centerY, markWidth, gap, yRatios), LineDraw(duration, flags)) +
    Each(VerticalLines(centerX, centerY, markWidth, gap, xRatios), LineDraw(duration, flags))
  }

  method BleachFiducial(mc: DirectSerial, centerX: real, centerY: real, markWidth: real, markBaseGapWidth: real,
                        xRatios: seq<real>, yRatios: seq<real>, duration: Time, flags: Flags)
    returns (ok: bool)
    modifies mc
    ensures (mc.Snapshot(), ok) == Exec(Flagged, old(mc.Snapshot()),
      FiducialSteps(centerX, centerY, markWidth, markBaseGapWidth, xRatios, yRatios, duration, flags), flags)
  {
    ghost var draw := LineDraw(duration, flags);
    ghost var across := Each(HorizontalLines(centerX, centerY, markWidth, markBaseGapWidth, yRatios), draw);
    ghost var up := Each(VerticalLines(centerX, centerY, markWidth, markBaseGapWidth, xRatios), draw);
    ExecAppend(Flagged, mc.Snapshot(), across, up, flags);
    ok := DrawAcross(mc, centerX, centerY, markWidth, markBaseGapWidth, yRatios, duration, flags);
    if ok {
      ok := DrawUp(mc, centerX, centerY, markWidth, markBaseGapWidth, xRatios, duration, flags);
    }
  }

  /** One fiducial line (115, 121): BleachLine from the segment's first end to its second. */
  method DrawLine(mc: DirectSerial, s: Segment, duration: Time, flags: Flags) returns (ok: bool)
    modifies mc
    ensures (mc.Snapshot(), ok) == Exec(Flagged, old(mc.Snapshot()), LineDraw(duration, flags)(s), flags)
  {
    ok := BleachLine(mc, Bare(s.x0), Bare(s.y0), Bare(s.x1), Bare(s.y1), duration, flags);
  }

  /** The first loop (111-115): a line across for every y ratio, stopping at the first that raises. */
  method DrawAcross(mc: DirectSerial, centerX: real, centerY: real, markWidth: real, markBaseGapWidth: real,
                    yRatios: seq<real>, duration: Time, flags: Flags)
    returns (ok: bool)
    modifies mc
    ensures (mc.Snapshot(), ok) == Exec(Flagged, old(mc.Snapshot()),
      Each(HorizontalLines(centerX, centerY, markWidth, markBaseGapWidth, yRatios), LineDraw(duration, flags)), flags)
  {
    ghost var k0 := mc.Snapshot();
    ghost var draw := LineDraw(duration, flags);
    ghost var hs := HorizontalLines(centerX, centerY, markWidth, markBaseGapWidth, yRatios);
    ok := true;
    var i := 0;
    while i < |yRatios|
      invariant 0 <= i <= |yRatios|
      invariant Exec(Flagged, k0, Each(hs[..i], draw), flags) == (mc.Snapshot(), true)
    {
      var boundXStart := centerX - (markWidth / 2.0);
      var boundXStop := centerX + (markWidth / 2.0);
      var yPosition := centerY + (yRatios[i] * markBaseGapWidth);
      assert hs[i] == Segment(boundXStart, yPosition, boundXStop, yPosition);
      ok := DrawLine(mc, Segment(boundXStart, yPosition, boundXStop, yPosition), duration, flags);
      ExecEachNext(Flagged, k0, hs, i, draw, flags, mc.Snapshot(), ok);
      if !ok {
        return;
      }
      i := i + 1;
    }
    assert hs[..i] == hs;
  }

  /** The second loop (117-121): a line up for every x ratio, stopping at the first that raises. */
  method DrawUp(mc: DirectSerial, centerX: real, centerY: real, markWidth: real, markBaseGapWidth: real,
                xRatios: seq<real>, duration: Time, flags: Flags)
    returns (ok: bool)
    modifies mc
    ensures (mc.Snapshot(), ok) == Exec(Flagged, old(mc.Snapshot()),
      Each(VerticalLines(centerX, centerY, markWidth, markBaseGapWidth, xRatios), LineDraw(duration, flags)), flags)
  {
    ghost var k0 := mc.Snapshot();
    ghost var draw := LineDraw(duration, flags);
    ghost var vs := VerticalLines(centerX, centerY, markWidth, markBaseGapWidth, xRatios);
    ok := true;
    var j := 0;
    while j < |xRatios|
      invariant 0 <= j <= |xRatios|
      invariant Exec(Flagged, k0, Each(vs[..j], draw), flags) == (mc.Snapshot(), true)
    {
      var boundYStart := centerY - (markWidth / 2.0);
      var boundYStop := centerY + (markWidth / 2.0);
      var xPosition := centerX + (xRatios[j] * markBaseGapWidth);
      assert vs[j] == Segment(xPosition, boundYStart, xPosition, boundYStop);
      ok := DrawLine(mc, Segment(xPosition, boundYStart, xPosition, boundYStop), duration, flags);
      ExecEachNext(Flagged, k0, vs, j, draw, flags, mc.Snapshot(), ok);
      if !ok {
        return;
      }
      j := j + 1;
    }
    assert vs[..j] == vs;
  }

  /**
   * The fiducial makes |yRatios| + |xRatios| BleachLine calls of six sends
   * each: call j (the yRatios lines first, in list order) draws line j, and
   * every line waits the duration once.
   */
  lemma FiducialCalls(centerX: real, centerY: real, markWidth: real, gap: real,
                      xRatios: seq<real>, yRatios: seq<real>, duration: Time, flags: Flags, j: nat)
    requires j < |yRatios| + |xRatios|
    ensures var lines := HorizontalLines(centerX, centerY, markWidth, gap, yRatios) +
                         VerticalLines(centerX, centerY, markWidth, gap, xRatios);
      var steps := FiducialSteps(centerX, centerY, markWidth, gap, xRatios, yRatios, duration, flags);
      |steps| == 6 * |lines| &&
      steps[6 * j..6 * (j + 1)] == LineDraw(duration, flags)(lines[j]) &&
      TotalDelay(Flagged, steps) == Repeated(|lines|, ToSeconds(duration))
  {
    var draw := LineDraw(duration, flags);
    var hs := HorizontalLines(centerX, centerY, markWidth, gap, yRatios);
    var vs := VerticalLines(centerX, centerY, markWidth, gap, xRatios);
    forall s ensures |draw(s)| == 6 {
    }
    EachAppend(hs, vs, draw);
    EachAt(hs + vs, draw, 6, j);
    forall i | 0 <= i < |hs + vs| ensures TotalDelay(Flagged, draw((hs + vs)[i])) == ToSeconds(duration) {
      var s := (hs + vs)[i];
      BleachLineTiming(Bare(s.x0), Bare(s.y0), Bare(s.x1), Bare(s.y1), duration, flags);
    }
    EachDelay(Flagged, hs + vs, draw, ToSeconds(duration));
    assert j * 6 == 6 * j && (j + 1) * 6 == 6 * (j + 1);
  }
}
