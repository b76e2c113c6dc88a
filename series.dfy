/**
 * The shape every drawing procedure shares: a fixed series of sendCommand
 * calls, each set-up command passed the same literal delay, then one final
 * command passed the procedure's wait.  The lemmas here are about any such
 * series, so the procedures only supply what their encoders return.
 */
module SendSeries {
  import opened Wrappers
  import opened Units
  import opened WireFormat
  import opened Transport

  /** The calls of a series: every set-up command with delay `none`, then the final one with `wait`. */
  function Series(setup: seq<Result<Line>>, final: Result<Line>, none: Time, wait: Time): (steps: seq<Step>)
    ensures |steps| == |setup| + 1
    ensures forall i :: 0 <= i < |setup| ==> steps[i] == Step(setup[i], none)
    ensures steps[|setup|] == Step(final, wait)
    decreases |setup|
  {
    if |setup| == 0 then [Step(final, wait)]
    else [Step(setup[0], none)] + Series(setup[1..], final, none, wait)
  }

  /** Every command of the list encodes. */
  predicate AllOk(cs: seq<Result<Line>>) { forall i :: 0 <= i < |cs| ==> cs[i].Ok? }

  /** A series encodes exactly when each of its commands does. */
  lemma SeriesEncoded(setup: seq<Result<Line>>, final: Result<Line>, none: Time, wait: Time)
    ensures Encoded(Series(setup, final, none, wait)) <==> AllOk(setup) && final.Ok?
  {
    var steps := Series(setup, final, none, wait);
    if AllOk(setup) && final.Ok? {
      forall i | 0 <= i < |steps| ensures steps[i].command.Ok? {
        if i < |setup| { assert steps[i].command == setup[i]; }
      }
    }
    if Encoded(steps) {
      assert steps[|setup|].command.Ok?;
      forall i | 0 <= i < |setup| ensures setup[i].Ok? {
        assert steps[i].command.Ok?;
      }
    }
  }

  /** When the set-up delay sleeps for nothing, a series waits exactly its final wait. */
  lemma {:induction false} SeriesDelay(d: Discipline, setup: seq<Result<Line>>, final: Result<Line>, none: Time, wait: Time)
    requires SleepSeconds(d, none) == 0.0
    ensures TotalDelay(d, Series(setup, final, none, wait)) == SleepSeconds(d, wait)
    decreases |setup|
  {
    if |setup| > 0 {
      var steps := Series(setup, final, none, wait);
      assert steps[1..] == Series(setup[1..], final, none, wait);
      SeriesDelay(d, setup[1..], final, none, wait);
    }
  }

  /**
   * A series run on a transport that can write and sleep finishes exactly
   * when every command encodes; then each line is delivered and echoed in
   * order and the run sleeps for the final wait.
   */
  lemma SeriesRun(d: Discipline, k: Link, setup: seq<Result<Line>>, final: Result<Line>, none: Time, wait: Time, flags: Flags)
    requires Writes(d, flags) ==> Usable(k.port)
    requires SleepOk(d, none) && SleepOk(d, wait) && SleepSeconds(d, none) == 0.0
    ensures var steps := Series(setup, final, none, wait);
      var r := Exec(d, k, steps, flags);
      (r.1 <==> AllOk(setup) && final.Ok?) &&
      (r.1 && Writes(d, flags) ==> r.0.wire == k.wire + Delivered(k.port.id, steps)) &&
      (r.1 && Echoes(d, flags) ==> r.0.console == k.console + Echoed(steps)) &&
      (r.1 ==> r.0.elapsed == k.elapsed + SleepSeconds(d, wait))
  {
    var steps := Series(setup, final, none, wait);
    SeriesEncoded(setup, final, none, wait);
    SeriesDelay(d, setup, final, none, wait);
    forall i | 0 <= i < |steps| ensures SleepOk(d, steps[i].delay) {
      if i < |setup| { assert steps[i].delay == none; }
    }
    if AllOk(setup) && final.Ok? {
      ExecSucceeds(d, k, steps, flags);
    }
    if Exec(d, k, steps, flags).1 {
      ExecComplete(d, k, steps, flags);
      ExecCompleteConsole(d, k, steps, flags);
    }
  }

  /**
   * A series whose first failing command is set-up command j delivers the j
   * set-up lines before it, in order, and stops.
   */
  lemma SeriesStops(d: Discipline, k: Link, setup: seq<Result<Line>>, final: Result<Line>, none: Time, wait: Time,
                    flags: Flags, j: nat)
    requires Writes(d, flags) ==> Usable(k.port)
    requires SleepOk(d, none)
    requires j < |setup| && setup[j].Err? && AllOk(setup[..j])
    ensures var steps := Series(setup, final, none, wait);
      var r := Exec(d, k, steps, flags);
      !r.1 && (Writes(d, flags) ==> r.0.wire == k.wire + Delivered(k.port.id, steps[..j]))
  {
    var steps := Series(setup, final, none, wait);
    var front := steps[..j];
    forall i | 0 <= i < |front| ensures front[i].command.Ok? && SleepOk(d, front[i].delay) {
      assert front[i] == Step(setup[i], none) && setup[..j][i] == setup[i];
    }
    ExecSucceeds(d, k, front, flags);
    ExecComplete(d, k, front, flags);
    var kj := Exec(d, k, front, flags).0;
    assert steps == front + steps[j..];
    ExecAppend(d, k, front, steps[j..], flags);
    assert steps[j..][0].command.Err?;
    assert Exec(d, kj, steps[j..], flags) == (kj, false);
  }
}
