/**
 * WasatchWritter/Code/Wasatch_Serial_Interface_DirectSerial.py: the older
 * serial interface object, which always writes and echoes and takes a
 * unit-tagged delay.  Its fields are the
 * Python object's (_currentlyConnected, _serialPort) plus what the outside
 * world sees of it: the lines written to each port, the console, and the time
 * slept.  The host's serial ports and how they answer are the constructor's
 * `env`.  Every method is proved to do what the value-level Transport
 * functions say, so the lemmas there are about this object too.
 */
module LegacySerial {
  import opened Wrappers
  import opened Units
  import opened Calibration
  import opened WireFormat
  import opened Transport
  import SerialCommands

  class DirectSerial {
    var connected: bool
    var port: PortState
    var wire: seq<Write>
    var console: seq<string>
    var elapsed: real
    const env: Environment

    /** The interface's observable state as a value. */
    function Snapshot(): Link
      reads this
    {
      Link(connected, port, wire, console, elapsed)
    }

    /** __init__: a new interface looks for the galvo straight away. */
    constructor(env: Environment)
      ensures this.env == env
      ensures Snapshot() == Reconnect(Legacy, env, Initial).0
    {
      this.env := env;
      connected, port, wire, console, elapsed := false, NoPort, [], [], 0.0;
      new;
      var _ := ReconnectToMicroscope();
    }

    /**
     * connectedToMicroscope (lines 48-49): this revision's class has its own
     * accessor, the same as the flagged interface's; it returns the flag.
     */
    function ConnectedToMicroscope(): (c: bool)
      reads this
      ensures c == Snapshot().connected
    {
      connected
    }

    /** reconnectToMicroscope: the connected flag is set when the search succeeds, and never cleared. */
    method ReconnectToMicroscope() returns (found: bool)
      modifies this
      ensures (Snapshot(), found) == Reconnect(Legacy, env, old(Snapshot()))
    {
      found := FindPort();
      if found {
        connected := true;
      }
    }

    /**
     * sendCommand(command, timeSecs = 0 s): write "command\n" (raising without
     * an open port), echo it, then sleep for timeSecs in seconds (raising on a
     * bare number or a negative time).
     */
    method SendCommand(command: string, timeSecs: Time := Time(0.0, Second)) returns (ok: bool)
      modifies this
      ensures (Snapshot(), ok) == After(Legacy, old(Snapshot()), command, timeSecs, [])
    {
      if !Usable(port) {
        return false;
      }
      wire := wire + [Write(port.id, command + "\n")];
      console := console + [Echo(command)];
      if timeSecs.unit == BareTime || Seconds(timeSecs) < 0.0 {
        return false;
      }
      elapsed := elapsed + Seconds(timeSecs);
      ok := true;
    }

    /** close(): raises when no port object was ever made. */
    method Close() returns (ok: bool)
      modifies this
      ensures (Snapshot(), ok) == Transport.Close(old(Snapshot()))
    {
      match port
      case NoPort =>
        ok := false;
      case Port(id, _) =>
        port := Port(id, false);
        ok := true;
    }

    /**
     * _findPort: five rounds over the port list.  A port that cannot be made
     * is skipped; one that is made but will not reopen is kept as the port
     * object and skipped; an open port is pinged, and the one answering "A"
     * is sent a stop and kept.
     */
    method FindPort() returns (found: bool)
      modifies this
      ensures (Snapshot(), found) == Transport.FindPort(Legacy, env, old(Snapshot()))
    {
      ghost var goal := Transport.FindPort(Legacy, env, old(Snapshot()));
      console := console + [Looking];
      var index := 0;
      while index < Attempts
        invariant 0 <= index <= Attempts
        invariant Scan(Legacy, env, Snapshot(), index, 0) == goal
      {
        var current := 0;
        while current < env.ports
          invariant 0 <= current <= env.ports
          invariant Scan(Legacy, env, Snapshot(), index, current) == goal
          decreases env.ports - current
        {
          match env.probe(index, current) {
            case Missing =>
            case OpenFails =>
              port := Port(current, false);
            case Opens(reply) =>
              port := Port(current, true);
              LegacyIgnoresFlags(Snapshot(), SerialCommands.PingText, ProbeDelay(Legacy), ["showSerial"]);
              var _ := SendCommand(SerialCommands.PingText);
              if reply == "A" {
                LegacyIgnoresFlags(Snapshot(), SerialCommands.StopText, ProbeDelay(Legacy), ["showSerial"]);
                var _ := SendCommand(SerialCommands.StopText);
                console := console + [Found];
                return true;
              }
          }
          current := current + 1;
        }
        index := index + 1;
      }
      console := console + [NotFound];
      found := false;
    }

    /**
     * A procedure's fixed series of sendCommand calls, made in turn: each
     * command is encoded first (an encoder that raises ends the procedure
     * before anything more is sent), and a send that raises ends it too.
     */
    method Run(steps: seq<Step>) returns (ok: bool)
      modifies this
      ensures (Snapshot(), ok) == Exec(Legacy, old(Snapshot()), steps, [])
      decreases |steps|
    {
      if |steps| == 0 {
        return true;
      }
      if steps[0].command.Err? {
        return false;
      }
      ok := SendCommand(Render(steps[0].command.value), steps[0].delay);
      if ok {
        ok := Run(steps[1..]);
      }
    }
  }
}
