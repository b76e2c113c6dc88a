/**
 * What the serial transport does, as values.  There are two transports:
 *
 *   Flagged (Wasatch/Code/MCU/Wasatch_Serial_Interface_DirectSerial.py)
 *     sendCommand(command, timeDelay, *flags) writes unless "disableOutput"
 *     is among the flags, echoes only with "showSerial", and sleeps for
 *     WConvert_ToSeconds(timeDelay);
 *   Legacy (WasatchWritter/Code/Wasatch_Serial_Interface_DirectSerial.py)
 *     sendCommand(command, timeSecs = 0 s) always writes, always echoes,
 *     and sleeps for timeSecs.to(seconds), which needs a unit-tagged time.
 *
 * A Link is everything a transport call can change or be observed by: the
 * connected flag, the serial port object, the lines written to each port,
 * the console, and the total time slept.  A call that raises in the source
 * returns false here, with the state as far as the source got before the
 * exception.
 */
module Transport {
  import opened Wrappers
  import opened Units
  import opened Calibration
  import opened WireFormat
  import SerialCommands

  datatype Discipline = Flagged | Legacy

  /** The serial port object: None, or a port that is open or not. */
  datatype PortState = NoPort | Port(id: nat, open: bool)

  /** One write on the wire: the bytes of "%s\n" % command on a port. */
  datatype Write = Write(port: nat, text: string)

  datatype Link = Link(connected: bool, port: PortState, wire: seq<Write>, console: seq<string>, elapsed: real)

  /** A freshly constructed interface object, before it looks for a port. */
  const Initial := Link(false, NoPort, [], [], 0.0)

  predicate Usable(port: PortState) { port.Port? && port.open }

  predicate Writes(d: Discipline, flags: Flags) { d == Legacy || !DisableOutput(flags) }

  predicate Echoes(d: Discipline, flags: Flags) { d == Legacy || ShowSerial(flags) }

  /** time.sleep accepts the delay: Legacy needs a tagged time, and no duration may be negative. */
  predicate SleepOk(d: Discipline, delay: Time)
  {
    match d
    case Flagged => ToSeconds(delay) >= 0.0
    case Legacy => delay.unit != BareTime && Seconds(delay) >= 0.0
  }

  function SleepSeconds(d: Discipline, delay: Time): real
  {
    match d
    case Flagged => ToSeconds(delay)
    case Legacy => Seconds(delay)
  }

  const EchoPrefix := "Command is: "

  function Echo(command: string): string { EchoPrefix + command }

  /**
   * One sendCommand: the write (which raises on a missing or closed port),
   * then the echo, then the sleep (which raises on a delay it cannot take).
   */
  function After(d: Discipline, k: Link, command: string, delay: Time, flags: Flags): (Link, bool)
  {
    if Writes(d, flags) && !Usable(k.port) then (k, false)
    else
      var written := if Writes(d, flags) then [Write(k.port.id, command + "\n")] else [];
      var echoed := if Echoes(d, flags) then [Echo(command)] else [];
      var k1 := k.(wire := k.wire + written, console := k.console + echoed);
      if SleepOk(d, delay) then (k1.(elapsed := k1.elapsed + SleepSeconds(d, delay)), true)
      else (k1, false)
  }

  /** One call of a procedure: the encoder's outcome and the delay passed beside it. */
  datatype Step = Step(command: Result<Line>, delay: Time)

  /**
   * A procedure's calls in order.  An encoder that raises stops the procedure
   * before its line is sent; a send that raises stops it after.
   */
  function Exec(d: Discipline, k: Link, steps: seq<Step>, flags: Flags): (Link, bool)
    decreases |steps|
  {
    if |steps| == 0 then (k, true)
    else match steps[0].command
      case Err(_) => (k, false)
      case Ok(c) =>
        var r := After(d, k, Render(c), steps[0].delay, flags);
        if r.1 then Exec(d, r.0, steps[1..], flags) else r
  }

  /** Running two lists of calls is running the first, then, if it finished, the second. */
  lemma {:induction false} ExecAppend(d: Discipline, k: Link, a: seq<Step>, b: seq<Step>, flags: Flags)
    ensures Exec(d, k, a + b, flags) ==
      (if Exec(d, k, a, flags).1 then Exec(d, Exec(d, k, a, flags).0, b, flags) else Exec(d, k, a, flags))
    decreases |a|
  {
    if |a| == 0 {
      assert a + b == b;
    } else {
      assert (a + b)[0] == a[0];
      assert (a + b)[1..] == a[1..] + b;
      match a[0].command
      case Err(_) =>
      case Ok(c) =>
        var r := After(d, k, Render(c), a[0].delay, flags);
        if r.1 {
          ExecAppend(d, r.0, a[1..], b, flags);
        }
    }
  }

  /**
   * The step a straight-line procedure takes: having run steps[..i] without
   * error, running steps[i] either extends the run or ends the procedure.
   */
  lemma ExecStep(d: Discipline, k0: Link, steps: seq<Step>, i: nat, flags: Flags)
    requires i < |steps|
    requires Exec(d, k0, steps[..i], flags).1
    ensures Exec(d, k0, steps[..i + 1], flags) ==
      Exec(d, Exec(d, k0, steps[..i], flags).0, [steps[i]], flags)
    ensures !Exec(d, k0, steps[..i + 1], flags).1 ==> Exec(d, k0, steps, flags) == Exec(d, k0, steps[..i + 1], flags)
  {
    assert steps[..i + 1] == steps[..i] + [steps[i]];
    ExecAppend(d, k0, steps[..i], [steps[i]], flags);
    assert steps == steps[..i + 1] + steps[i + 1..];
    ExecAppend(d, k0, steps[..i + 1], steps[i + 1..], flags);
  }

  // ------------------------------------------------------------ delivered

  /** The writes a list of calls delivers to a port, up to its first encoder error. */
  function Delivered(id: nat, steps: seq<Step>): seq<Write>
    decreases |steps|
  {
    if |steps| == 0 then []
    else match steps[0].command
      case Err(_) => []
      case Ok(c) => [Write(id, Render(c) + "\n")] + Delivered(id, steps[1..])
  }

  /** The echoes a list of calls prints, up to its first encoder error. */
  function Echoed(steps: seq<Step>): seq<string>
    decreases |steps|
  {
    if |steps| == 0 then []
    else match steps[0].command
      case Err(_) => []
      case Ok(c) => [Echo(Render(c))] + Echoed(steps[1..])
  }

  /** Every command of the list encoded. */
  predicate Encoded(steps: seq<Step>) { forall i :: 0 <= i < |steps| ==> steps[i].command.Ok? }

  /** The time a list of calls asks to sleep. */
  function TotalDelay(d: Discipline, steps: seq<Step>): real
    decreases |steps|
  {
    if |steps| == 0 then 0.0 else SleepSeconds(d, steps[0].delay) + TotalDelay(d, steps[1..])
  }

  /** A run never changes the connected flag or the port, and without writing it leaves the wire alone. */
  lemma {:induction false} ExecKeepsPort(d: Discipline, k: Link, steps: seq<Step>, flags: Flags)
    ensures Exec(d, k, steps, flags).0.connected == k.connected
    ensures Exec(d, k, steps, flags).0.port == k.port
    ensures !Writes(d, flags) ==> Exec(d, k, steps, flags).0.wire == k.wire
    decreases |steps|
  {
    if |steps| > 0 && steps[0].command.Ok? {
      var r := After(d, k, Render(steps[0].command.value), steps[0].delay, flags);
      if r.1 {
        ExecKeepsPort(d, r.0, steps[1..], flags);
      }
    }
  }

  /**
   * What a run writes is a prefix of what its list of calls would deliver:
   * the transport neither reorders nor invents lines, and stops at a failure.
   */
  lemma {:induction false} ExecDeliversPrefix(d: Discipline, k: Link, steps: seq<Step>, flags: Flags)
    requires Writes(d, flags) && Usable(k.port)
    ensures exists j :: 0 <= j <= |steps| && Exec(d, k, steps, flags).0.wire == k.wire + Delivered(k.port.id, steps[..j])
    decreases |steps|
  {
    var id := k.port.id;
    if |steps| > 0 && steps[0].command.Ok? {
      var w := Write(id, Render(steps[0].command.value) + "\n");
      var r := After(d, k, Render(steps[0].command.value), steps[0].delay, flags);
      assert r.0.wire == k.wire + [w] && r.0.port == k.port;
      if r.1 {
        ExecDeliversPrefix(d, r.0, steps[1..], flags);
        var j :| 0 <= j <= |steps[1..]| && Exec(d, r.0, steps[1..], flags).0.wire == r.0.wire + Delivered(id, steps[1..][..j]);
        assert steps[..j + 1][0] == steps[0] && steps[..j + 1][1..] == steps[1..][..j];
        assert Delivered(id, steps[..j + 1]) == [w] + Delivered(id, steps[1..][..j]);
      } else {
        assert steps[..1][0] == steps[0] && steps[..1][1..] == [];
        assert Delivered(id, steps[..1]) == [w];
      }
    } else {
      assert steps[..0] == [];
    }
  }

  /**
   * A run that finishes delivers every line, in order, echoes each one the
   * transport echoes, and sleeps for the sum of the delays.
   */
  lemma {:induction false} ExecComplete(d: Discipline, k: Link, steps: seq<Step>, flags: Flags)
    requires Exec(d, k, steps, flags).1
    ensures Encoded(steps)
    ensures Writes(d, flags) && Usable(k.port) ==> Exec(d, k, steps, flags).0.wire == k.wire + Delivered(k.port.id, steps)
    ensures !Writes(d, flags) ==> Exec(d, k, steps, flags).0.wire == k.wire
  {
    ExecEncoded(d, k, steps, flags);
    ExecWire(d, k, steps, flags);
  }

  lemma {:induction false} ExecEncoded(d: Discipline, k: Link, steps: seq<Step>, flags: Flags)
    requires Exec(d, k, steps, flags).1
    ensures Encoded(steps)
    decreases |steps|
  {
    if |steps| > 0 {
      assert steps[0].command.Ok?;
      var r := After(d, k, Render(steps[0].command.value), steps[0].delay, flags);
      assert r.1 && Exec(d, k, steps, flags) == Exec(d, r.0, steps[1..], flags);
      ExecEncoded(d, r.0, steps[1..], flags);
      forall i | 0 < i < |steps| ensures steps[i].command.Ok? {
        assert steps[i] == steps[1..][i - 1];
      }
    }
  }

  lemma {:induction false} ExecWire(d: Discipline, k: Link, steps: seq<Step>, flags: Flags)
    requires Exec(d, k, steps, flags).1
    ensures Writes(d, flags) && Usable(k.port) ==> Exec(d, k, steps, flags).0.wire == k.wire + Delivered(k.port.id, steps)
    ensures !Writes(d, flags) ==> Exec(d, k, steps, flags).0.wire == k.wire
    decreases |steps|
  {
    if |steps| > 0 {
      assert steps[0].command.Ok?;
      var c := steps[0].command.value;
      var r := After(d, k, Render(c), steps[0].delay, flags);
      assert r.1 && Exec(d, k, steps, flags) == Exec(d, r.0, steps[1..], flags);
      assert r.0.port == k.port;
      ExecWire(d, r.0, steps[1..], flags);
    }
  }

  /** A run that finishes could take every delay it was given. */
  lemma {:induction false} ExecSleeps(d: Discipline, k: Link, steps: seq<Step>, flags: Flags)
    requires Exec(d, k, steps, flags).1
    ensures forall i :: 0 <= i < |steps| ==> SleepOk(d, steps[i].delay)
    decreases |steps|
  {
    if |steps| > 0 {
      var r := After(d, k, Render(steps[0].command.value), steps[0].delay, flags);
      ExecSleeps(d, r.0, steps[1..], flags);
      forall i | 0 < i < |steps| ensures SleepOk(d, steps[i].delay) {
        assert steps[i] == steps[1..][i - 1];
      }
    }
  }

  /** A run that finishes echoes each line the transport echoes and sleeps for the sum of the delays. */
  lemma {:induction false} ExecCompleteConsole(d: Discipline, k: Link, steps: seq<Step>, flags: Flags)
    requires Exec(d, k, steps, flags).1
    ensures Echoes(d, flags) ==> Exec(d, k, steps, flags).0.console == k.console + Echoed(steps)
    ensures !Echoes(d, flags) ==> Exec(d, k, steps, flags).0.console == k.console
    ensures Exec(d, k, steps, flags).0.elapsed == k.elapsed + TotalDelay(d, steps)
  {
    ExecEchoes(d, k, steps, flags);
    ExecElapsed(d, k, steps, flags);
  }

  lemma {:induction false} ExecEchoes(d: Discipline, k: Link, steps: seq<Step>, flags: Flags)
    requires Exec(d, k, steps, flags).1
    ensures Exec(d, k, steps, flags).0.console == k.console + (if Echoes(d, flags) then Echoed(steps) else [])
    decreases |steps|
  {
    if |steps| > 0 {
      assert steps[0].command.Ok?;
      var c := steps[0].command.value;
      var r := After(d, k, Render(c), steps[0].delay, flags);
      assert r.1 && Exec(d, k, steps, flags) == Exec(d, r.0, steps[1..], flags);
      ExecEchoes(d, r.0, steps[1..], flags);
      assert r.0.console == k.console + (if Echoes(d, flags) then [Echo(Render(c))] else []);
      assert Echoed(steps) == [Echo(Render(c))] + Echoed(steps[1..]);
    }
  }

  lemma {:induction false} ExecElapsed(d: Discipline, k: Link, steps: seq<Step>, flags: Flags)
    requires Exec(d, k, steps, flags).1
    ensures Exec(d, k, steps, flags).0.elapsed == k.elapsed + TotalDelay(d, steps)
    decreases |steps|
  {
    if |steps| > 0 {
      assert steps[0].command.Ok?;
      var r := After(d, k, Render(steps[0].command.value), steps[0].delay, flags);
      assert r.1 && Exec(d, k, steps, flags) == Exec(d, r.0, steps[1..], flags);
      ExecElapsed(d, r.0, steps[1..], flags);
      assert r.0.elapsed == k.elapsed + SleepSeconds(d, steps[0].delay);
    }
  }

  /** With "disableOutput" the flagged transport writes nothing, even with no port at all. */
  lemma {:induction false} DisabledRunWritesNothing(k: Link, steps: seq<Step>, flags: Flags)
    requires DisableOutput(flags)
    ensures Exec(Flagged, k, steps, flags).0.wire == k.wire
    ensures Encoded(steps) && (forall i :: 0 <= i < |steps| ==> ToSeconds(steps[i].delay) >= 0.0) ==>
      Exec(Flagged, k, steps, flags).1
    decreases |steps|
  {
    ExecKeepsPort(Flagged, k, steps, flags);
    if |steps| > 0 && steps[0].command.Ok? {
      var r := After(Flagged, k, Render(steps[0].command.value), steps[0].delay, flags);
      DisabledRunWritesNothing(r.0, steps[1..], flags);
      if Encoded(steps) && (forall i :: 0 <= i < |steps| ==> ToSeconds(steps[i].delay) >= 0.0) {
        assert ToSeconds(steps[0].delay) >= 0.0;
        forall i | 0 <= i < |steps[1..]| ensures steps[1..][i].command.Ok? && ToSeconds(steps[1..][i].delay) >= 0.0 {
          assert steps[1..][i] == steps[i + 1];
        }
      }
    }
  }

  /** A run that stops stops the whole procedure: the calls after it are never made. */
  lemma ExecAbort(d: Discipline, k: Link, a: seq<Step>, b: seq<Step>, flags: Flags)
    requires !Exec(d, k, a, flags).1
    ensures Exec(d, k, a + b, flags) == Exec(d, k, a, flags)
  {
    ExecAppend(d, k, a, b, flags);
  }

  /** The delays of two lists of calls add up. */
  lemma {:induction false} TotalDelayAppend(d: Discipline, a: seq<Step>, b: seq<Step>)
    ensures TotalDelay(d, a + b) == TotalDelay(d, a) + TotalDelay(d, b)
    decreases |a|
  {
    if |a| == 0 {
      assert a + b == b;
    } else {
      assert (a + b)[0] == a[0];
      assert (a + b)[1..] == a[1..] + b;
      TotalDelayAppend(d, a[1..], b);
    }
  }

  /**
   * A run finishes when every command encodes, the transport has an open
   * port whenever it writes, and every delay can be slept.
   */
  lemma {:induction false} ExecSucceeds(d: Discipline, k: Link, steps: seq<Step>, flags: Flags)
    requires Encoded(steps)
    requires Writes(d, flags) ==> Usable(k.port)
    requires forall i :: 0 <= i < |steps| ==> SleepOk(d, steps[i].delay)
    ensures Exec(d, k, steps, flags).1
    decreases |steps|
  {
    if |steps| > 0 {
      assert steps[0].command.Ok? && SleepOk(d, steps[0].delay);
      var r := After(d, k, Render(steps[0].command.value), steps[0].delay, flags);
      assert r.1 && r.0.port == k.port;
      forall i | 0 <= i < |steps[1..]|
        ensures steps[1..][i].command.Ok? && SleepOk(d, steps[1..][i].delay)
      {
        assert steps[1..][i] == steps[i + 1];
      }
      ExecSucceeds(d, r.0, steps[1..], flags);
    }
  }

  /** Every call of the list encodes and its delay can be slept. */
  predicate Runnable(d: Discipline, steps: seq<Step>)
  {
    forall i :: 0 <= i < |steps| ==> steps[i].command.Ok? && SleepOk(d, steps[i].delay)
  }

  /** Two lists of runnable calls make a runnable list. */
  lemma RunnableAppend(d: Discipline, a: seq<Step>, b: seq<Step>)
    requires Runnable(d, a) && Runnable(d, b)
    ensures Runnable(d, a + b)
  {
    forall i | 0 <= i < |a + b| ensures (a + b)[i].command.Ok? && SleepOk(d, (a + b)[i].delay) {
      if i < |a| { assert (a + b)[i] == a[i]; } else { assert (a + b)[i] == b[i - |a|]; }
    }
  }

  /**
   * Calls that all encode and can all be slept, on a transport that has an
   * open port whenever it writes: the run finishes, delivering and echoing
   * every line and sleeping for every delay.
   */
  lemma ExecAll(d: Discipline, k: Link, steps: seq<Step>, flags: Flags)
    requires Writes(d, flags) ==> Usable(k.port)
    requires Runnable(d, steps)
    ensures var r := Exec(d, k, steps, flags);
      r.1 &&
      (Writes(d, flags) ==> r.0.wire == k.wire + Delivered(k.port.id, steps)) &&
      (Echoes(d, flags) ==> r.0.console == k.console + Echoed(steps)) &&
      r.0.elapsed == k.elapsed + TotalDelay(d, steps)
  {
    ExecSucceeds(d, k, steps, flags);
    ExecComplete(d, k, steps, flags);
    ExecCompleteConsole(d, k, steps, flags);
  }

  /** Two calls wait for their two delays. */
  lemma TwoStepDelay(d: Discipline, a: Step, b: Step)
    ensures TotalDelay(d, [a, b]) == SleepSeconds(d, a.delay) + SleepSeconds(d, b.delay)
  {
    assert [a, b][1..] == [b];
    assert [b][1..] == [];
    assert TotalDelay(d, [b]) == SleepSeconds(d, b.delay) + TotalDelay(d, []);
    assert TotalDelay(d, [a, b]) == SleepSeconds(d, a.delay) + TotalDelay(d, [b]);
  }

  /** A run that writes and finishes found an open port before its first send. */
  lemma ExecNeedsPort(d: Discipline, k: Link, steps: seq<Step>, flags: Flags)
    requires |steps| > 0 && Writes(d, flags) && Exec(d, k, steps, flags).1
    ensures Usable(k.port)
  {
  }

  // ------------------------------------------------------------ port search

  /** What opening a port in the list gives on a given attempt. */
  datatype Probe =
    | Missing            // serial.Serial(device) raises: the port object stays as it was
    | OpenFails          // the object is made, but reopening it raises
    | Opens(reply: string) // the port opens; reply is the one byte read() returns after the ping, "" on time-out

  /** The serial ports list_ports.comports() reports, and how each behaves on each attempt. */
  datatype Environment = Environment(ports: nat, probe: (nat, nat) -> Probe)

  /** _RECONNECTIONATTEMPTS: every port is tried up to five times. */
  const Attempts: nat := 5

  predicate Responds(env: Environment, attempt: nat, index: nat) { env.probe(attempt, index) == Opens("A") }

  /** (a2, p2) comes at or after (a, p) in the search order: attempt by attempt, port by port. */
  predicate NotBefore(a: nat, p: nat, a2: nat, p2: nat) { a < a2 || (a == a2 && p <= p2) }

  /** Some port answers at or after the position (a, p) of the search. */
  predicate AnswerFrom(env: Environment, a: nat, p: nat)
  {
    exists a2: nat, p2: nat :: a2 < Attempts && p2 < env.ports && NotBefore(a, p, a2, p2) && Responds(env, a2, p2)
  }

  /** The delay the probe's sendCommand calls pass: a bare 0 (Flagged) or the default 0 s (Legacy). */
  function ProbeDelay(d: Discipline): Time
  {
    match d
    case Flagged => Time(0.0, BareTime)
    case Legacy => Time(0.0, Second)
  }

  const Found := "Galvo connection initialized."
  const NotFound := "No serial ports found for the galvo."
  const Looking := "Looking for serial ports:"

  /** A probe-time send with "showSerial" on an open port: the line is written and echoed, and no time passes. */
  function Shown(d: Discipline, k: Link, command: string): Link
  {
    After(d, k, command, ProbeDelay(d), ["showSerial"]).0
  }

  lemma ShownSend(d: Discipline, k: Link, command: string)
    requires Usable(k.port)
    ensures Shown(d, k, command) == k.(wire := k.wire + [Write(k.port.id, command + "\n")], console := k.console + [Echo(command)])
    ensures After(d, k, command, ProbeDelay(d), ["showSerial"]).1
  {
    assert ShowSerial(["showSerial"]) && !DisableOutput(["showSerial"]);
    assert SleepOk(d, ProbeDelay(d)) && SleepSeconds(d, ProbeDelay(d)) == 0.0;
  }

  /** The legacy transport takes no flags: what it does never depends on them. */
  lemma LegacyIgnoresFlags(k: Link, command: string, delay: Time, flags: Flags)
    ensures After(Legacy, k, command, delay, flags) == After(Legacy, k, command, delay, [])
  {
    assert Writes(Legacy, flags) && Writes(Legacy, []) && Echoes(Legacy, flags) && Echoes(Legacy, []);
  }

  /** The rest of _findPort's two loops from attempt a, port p on. */
  function Scan(d: Discipline, env: Environment, k: Link, a: nat, p: nat): (Link, bool)
    decreases Attempts - a, env.ports - p
  {
    if a >= Attempts then (k.(console := k.console + [NotFound]), false)
    else if p >= env.ports then Scan(d, env, k, a + 1, 0)
    else match env.probe(a, p)
      case Missing => Scan(d, env, k, a, p + 1)
      case OpenFails => Scan(d, env, k.(port := Port(p, false)), a, p + 1)
      case Opens(reply) =>
        if reply == "A" then (Greeted(d, k, p), true)
        else Scan(d, env, Shown(d, k.(port := Port(p, true)), SerialCommands.PingText), a, p + 1)
  }

  /** _findPort: announce the search, then scan from the first attempt and the first port. */
  function FindPort(d: Discipline, env: Environment, k: Link): (Link, bool)
  {
    Scan(d, env, k.(console := k.console + [Looking]), 0, 0)
  }

  /** The search finds a port exactly when some port answers "A" within the five attempts. */
  lemma {:induction false} ScanFinds(d: Discipline, env: Environment, k: Link, a: nat, p: nat)
    ensures Scan(d, env, k, a, p).1 <==> AnswerFrom(env, a, p)
    decreases Attempts - a, env.ports - p
  {
    if a >= Attempts {
    } else if p >= env.ports {
      ScanFinds(d, env, k, a + 1, 0);
      if AnswerFrom(env, a, p) {
        var a2: nat, p2: nat :| a2 < Attempts && p2 < env.ports && NotBefore(a, p, a2, p2) && Responds(env, a2, p2);
        assert NotBefore(a + 1, 0, a2, p2);
      }
      if AnswerFrom(env, a + 1, 0) {
        var a2: nat, p2: nat :| a2 < Attempts && p2 < env.ports && NotBefore(a + 1, 0, a2, p2) && Responds(env, a2, p2);
        assert NotBefore(a, p, a2, p2);
      }
    } else {
      var next := match env.probe(a, p)
        case Missing => k
        case OpenFails => k.(port := Port(p, false))
        case Opens(_) => Shown(d, k.(port := Port(p, true)), SerialCommands.PingText);
      if Responds(env, a, p) {
        assert NotBefore(a, p, a, p);
      } else {
        assert Scan(d, env, k, a, p) == Scan(d, env, next, a, p + 1);
        ScanFinds(d, env, next, a, p + 1);
        if AnswerFrom(env, a, p) {
          var a2: nat, p2: nat :| a2 < Attempts && p2 < env.ports && NotBefore(a, p, a2, p2) && Responds(env, a2, p2);
          assert (a2, p2) != (a, p);
          assert NotBefore(a, p + 1, a2, p2);
        }
        if AnswerFrom(env, a, p + 1) {
          var a2: nat, p2: nat :| a2 < Attempts && p2 < env.ports && NotBefore(a, p + 1, a2, p2) && Responds(env, a2, p2);
          assert NotBefore(a, p, a2, p2);
        }
      }
    }
  }

  /** The search never changes the connected flag and only adds writes and console lines. */
  lemma {:induction false} ScanKeeps(d: Discipline, env: Environment, k: Link, a: nat, p: nat)
    ensures Scan(d, env, k, a, p).0.connected == k.connected
    ensures k.wire <= Scan(d, env, k, a, p).0.wire
    ensures k.console <= Scan(d, env, k, a, p).0.console
    decreases Attempts - a, env.ports - p
  {
    if a >= Attempts {
    } else if p >= env.ports {
      ScanKeeps(d, env, k, a + 1, 0);
    } else {
      match env.probe(a, p)
      case Missing => ScanKeeps(d, env, k, a, p + 1);
      case OpenFails => ScanKeeps(d, env, k.(port := Port(p, false)), a, p + 1);
      case Opens(reply) =>
        if reply == "A" {
          TwoShown(d, k, p, SerialCommands.PingText, SerialCommands.StopText);
        } else {
          var k0 := k.(port := Port(p, true));
          ShownSend(d, k0, SerialCommands.PingText);
          var k1 := Shown(d, k0, SerialCommands.PingText);
          ScanKeeps(d, env, k1, a, p + 1);
        }
    }
  }

  /** The state a successful probe leaves: the ping and the stop written and echoed, then the greeting. */
  function Greeted(d: Discipline, k: Link, p: nat): Link
  {
    var k2 := Shown(d, Shown(d, k.(port := Port(p, true)), SerialCommands.PingText), SerialCommands.StopText);
    k2.(console := k2.console + [Found])
  }

  /** A successful search ends in the state Greeted describes, on the port that answered. */
  predicate GreetedState(r: Link)
  {
    Usable(r.port) && |r.wire| >= 2 &&
    r.wire[|r.wire| - 2..] == [Write(r.port.id, "ping\n"), Write(r.port.id, "stop\n")] &&
    |r.console| >= 3 &&
    r.console[|r.console| - 3..] == [Echo("ping"), Echo("stop"), Found]
  }

  /** Two probe-time sends on a freshly opened port. */
  lemma TwoShown(d: Discipline, k: Link, p: nat, c1: string, c2: string)
    ensures Shown(d, Shown(d, k.(port := Port(p, true)), c1), c2) ==
      k.(port := Port(p, true), wire := k.wire + [Write(p, c1 + "\n"), Write(p, c2 + "\n")], console := k.console + [Echo(c1), Echo(c2)])
  {
    var k0 := k.(port := Port(p, true));
    ShownSend(d, k0, c1);
    var k1 := Shown(d, k0, c1);
    ShownSend(d, k1, c2);
    assert k.wire + [Write(p, c1 + "\n"), Write(p, c2 + "\n")] == k.wire + [Write(p, c1 + "\n")] + [Write(p, c2 + "\n")];
    assert k.console + [Echo(c1), Echo(c2)] == k.console + [Echo(c1)] + [Echo(c2)];
  }

  lemma GreetedIsGreeted(d: Discipline, k: Link, p: nat)
    ensures GreetedState(Greeted(d, k, p))
    ensures Greeted(d, k, p).port == Port(p, true)
  {
    SerialCommands.ProbeTexts();
    TwoShown(d, k, p, SerialCommands.PingText, SerialCommands.StopText);
    var r := Greeted(d, k, p);
    assert r.wire == k.wire + [Write(p, "ping\n"), Write(p, "stop\n")];
    assert r.console == k.console + [Echo("ping"), Echo("stop"), Found];
  }

  /** On success the port is open, the last writes are the ping and the stop, and the console ends with the greeting. */
  lemma {:induction false} ScanSuccess(d: Discipline, env: Environment, k: Link, a: nat, p: nat)
    ensures Scan(d, env, k, a, p).1 ==> GreetedState(Scan(d, env, k, a, p).0)
    decreases Attempts - a, env.ports - p
  {
    if a >= Attempts {
    } else if p >= env.ports {
      ScanSuccess(d, env, k, a + 1, 0);
    } else {
      match env.probe(a, p)
      case Missing => ScanSuccess(d, env, k, a, p + 1);
      case OpenFails => ScanSuccess(d, env, k.(port := Port(p, false)), a, p + 1);
      case Opens(reply) =>
        if reply == "A" {
          GreetedIsGreeted(d, k, p);
        } else {
          ScanSuccess(d, env, Shown(d, k.(port := Port(p, true)), SerialCommands.PingText), a, p + 1);
        }
    }
  }

  /** On failure the console ends with the apology. */
  lemma {:induction false} ScanFailure(d: Discipline, env: Environment, k: Link, a: nat, p: nat)
    ensures !Scan(d, env, k, a, p).1 ==> (
      var r := Scan(d, env, k, a, p).0;
      |r.console| > 0 && r.console[|r.console| - 1] == NotFound)
    decreases Attempts - a, env.ports - p
  {
    if a >= Attempts {
    } else if p >= env.ports {
      ScanFailure(d, env, k, a + 1, 0);
    } else {
      match env.probe(a, p)
      case Missing => ScanFailure(d, env, k, a, p + 1);
      case OpenFails => ScanFailure(d, env, k.(port := Port(p, false)), a, p + 1);
      case Opens(reply) =>
        if reply != "A" {
          ScanFailure(d, env, Shown(d, k.(port := Port(p, true)), SerialCommands.PingText), a, p + 1);
        }
    }
  }

  /**
   * A port that opens but does not answer is left open: the close after a
   * wrong reply is commented out.  So when no port answers and the last
   * port of the last attempt opens, the failed search ends with that port
   * open, and later sends go to it.
   */
  lemma {:induction false} ScanFailureLeavesOpen(d: Discipline, env: Environment, k: Link, a: nat, p: nat)
    requires env.ports > 0 && NotBefore(a, p, Attempts - 1, env.ports - 1)
    requires env.probe(Attempts - 1, env.ports - 1).Opens?
    ensures !Scan(d, env, k, a, p).1 ==> Scan(d, env, k, a, p).0.port == Port(env.ports - 1, true)
    decreases Attempts - a, env.ports - p
  {
    if p >= env.ports {
      ScanFailureLeavesOpen(d, env, k, a + 1, 0);
    } else {
      match env.probe(a, p)
      case Missing => ScanFailureLeavesOpen(d, env, k, a, p + 1);
      case OpenFails => ScanFailureLeavesOpen(d, env, k.(port := Port(p, false)), a, p + 1);
      case Opens(reply) =>
        if reply != "A" {
          var k0 := k.(port := Port(p, true));
          ShownSend(d, k0, SerialCommands.PingText);
          if a == Attempts - 1 && p == env.ports - 1 {
            assert Scan(d, env, k, a, p) == Scan(d, env, Shown(d, k0, SerialCommands.PingText), a + 1, 0);
          } else {
            ScanFailureLeavesOpen(d, env, Shown(d, k0, SerialCommands.PingText), a, p + 1);
          }
        }
    }
  }

  /** How many (attempt, port) probes the search has left from position (a, p). */
  function ProbesLeft(env: Environment, a: nat, p: nat): nat
    decreases Attempts - a, env.ports - p
  {
    if a >= Attempts then 0
    else if p >= env.ports then ProbesLeft(env, a + 1, 0)
    else 1 + ProbesLeft(env, a, p + 1)
  }

  /** The rest of an attempt is one probe per remaining port, then the later attempts. */
  lemma {:induction false} ProbesLeftInAttempt(env: Environment, a: nat, p: nat)
    requires a < Attempts && p <= env.ports
    ensures ProbesLeft(env, a, p) == env.ports - p + ProbesLeft(env, a + 1, 0)
    decreases env.ports - p
  {
    if p < env.ports {
      ProbesLeftInAttempt(env, a, p + 1);
    }
  }

  /** The whole search is five attempts over every listed port. */
  lemma ProbesLeftTotal(env: Environment)
    ensures ProbesLeft(env, 0, 0) == Attempts * env.ports
  {
    ProbesLeftInAttempt(env, 0, 0);
    ProbesLeftInAttempt(env, 1, 0);
    ProbesLeftInAttempt(env, 2, 0);
    ProbesLeftInAttempt(env, 3, 0);
    ProbesLeftInAttempt(env, 4, 0);
  }

  /**
   * Each probe writes and echoes at most the ping; the one that answers
   * writes the ping and the stop and prints their echoes and the greeting,
   * and a search that fails prints one apology.
   */
  lemma {:induction false} ScanBounded(d: Discipline, env: Environment, k: Link, a: nat, p: nat)
    ensures |Scan(d, env, k, a, p).0.wire| <= |k.wire| + ProbesLeft(env, a, p) + 1
    ensures |Scan(d, env, k, a, p).0.console| <= |k.console| + ProbesLeft(env, a, p) + 2
    decreases Attempts - a, env.ports - p
  {
    if a >= Attempts {
    } else if p >= env.ports {
      ScanBounded(d, env, k, a + 1, 0);
    } else {
      match env.probe(a, p)
      case Missing => ScanBounded(d, env, k, a, p + 1);
      case OpenFails => ScanBounded(d, env, k.(port := Port(p, false)), a, p + 1);
      case Opens(reply) =>
        if reply == "A" {
          TwoShown(d, k, p, SerialCommands.PingText, SerialCommands.StopText);
        } else {
          var k0 := k.(port := Port(p, true));
          ShownSend(d, k0, SerialCommands.PingText);
          ScanBounded(d, env, Shown(d, k0, SerialCommands.PingText), a, p + 1);
        }
    }
  }

  /**
   * _findPort writes at most one ping per (attempt, port) and one stop, and
   * prints at most the announcement, one echo per probe and the closing
   * two echoes and greeting.
   */
  lemma FindPortBounded(d: Discipline, env: Environment, k: Link)
    ensures |FindPort(d, env, k).0.wire| <= |k.wire| + Attempts * env.ports + 1
    ensures |FindPort(d, env, k).0.console| <= |k.console| + Attempts * env.ports + 3
  {
    ProbesLeftTotal(env);
    ScanBounded(d, env, k.(console := k.console + [Looking]), 0, 0);
  }

  /** reconnectToMicroscope: search, and set the connected flag when a port answered. */
  function Reconnect(d: Discipline, env: Environment, k: Link): (r: (Link, bool))
    ensures r.1 <==> AnswerFrom(env, 0, 0)
    ensures r.0.connected <==> k.connected || r.1
  {
    var s := FindPort(d, env, k);
    ScanFinds(d, env, k.(console := k.console + [Looking]), 0, 0);
    ScanKeeps(d, env, k.(console := k.console + [Looking]), 0, 0);
    if s.1 then (s.0.(connected := true), true) else s
  }

  /** A failed reconnection does not clear the connected flag: nothing in the source ever resets it. */
  lemma ConnectedSticks(d: Discipline, env: Environment, k: Link)
    requires k.connected
    ensures Reconnect(d, env, k).0.connected
  {
  }

  /** close(): closes the port; with no port object at all it raises. */
  function Close(k: Link): (r: (Link, bool))
    ensures r.1 <==> k.port.Port?
    ensures r.1 ==> r.0.port.Port? && !r.0.port.open && r.0.port.id == k.port.id
    ensures r.0.wire == k.wire && r.0.console == k.console && r.0.connected == k.connected
  {
    if k.port.Port? then (k.(port := Port(k.port.id, false)), true) else (k, false)
  }

  /** After close, every send that would write raises, and nothing reaches the wire. */
  lemma SendAfterClose(d: Discipline, k: Link, command: string, delay: Time, flags: Flags)
    requires Writes(d, flags)
    ensures !After(d, Close(k).0, command, delay, flags).1
    ensures After(d, Close(k).0, command, delay, flags).0.wire == k.wire
  {
  }
}
