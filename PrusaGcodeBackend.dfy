/**
 * The motion backend for a Prusa MK4S (or compatible) printer driven by G-code over a serial line.
 * The serial port is an object holding the finite queue of lines the device will send; an
 * exhausted queue stands for the read timeout. connect() opens the port and only sets absolute
 * positioning (G90); motion happens only through move_to() and home().
 */
module PrusaGcodeBackend {
  import opened Results
  import opened Text
  import opened Gcode

  // ---------------------------------------------------------------------------------------
  // Cached state dictionary and errors

  /** A value of the cached state dictionary ({"connected": ..., "port": ..., "baudrate": ...}). */
  datatype StateValue = Flag(b: bool) | Name(s: string) | Count(n: int)

  type StateDict = map<string, StateValue>

  function DisconnectedState(): (d: StateDict)
    ensures d.Keys == {"connected"} && d["connected"] == Flag(false)
  {
    map["connected" := Flag(false)]
  }

  function ConnectedState(port: string, baudrate: int): (d: StateDict)
    ensures d.Keys == {"connected", "port", "baudrate"}
    ensures d["connected"] == Flag(true) && d["port"] == Name(port) && d["baudrate"] == Count(baudrate)
  {
    map["connected" := Flag(true), "port" := Name(port), "baudrate" := Count(baudrate)]
  }

  /**
   * What the backend raises: RuntimeError when pyserial is missing or when sending while not
   * connected, ValueError when no port is set, and the serial library's own error when the port
   * cannot be opened, a write fails or a read fails.
   */
  datatype BackendError = PyserialMissing | PortNotSet | OpenFailed | NotConnected | WriteFailed | ReadFailed

  // ---------------------------------------------------------------------------------------
  // The serial port

  /**
   * How the device behind a port behaves once it is opened. With readFails, the device goes away
   * after its last reply: the next readline raises instead of timing out.
   */
  datatype Device = Device(replies: seq<string>, writeFails: bool, readFails: bool, closeFails: bool)

  class SerialPort {
    /** The lines the device has still to send, in arrival order; an empty line is an empty read. */
    var incoming: seq<string>
    /** Everything written to the port so far. */
    var written: seq<string>
    var isOpen: bool
    const writeFails: bool
    const readFails: bool
    const closeFails: bool

    constructor Open(d: Device)
      ensures incoming == d.replies && written == [] && isOpen
      ensures writeFails == d.writeFails && readFails == d.readFails && closeFails == d.closeFails
    {
      incoming, written, isOpen := d.replies, [], true;
      writeFails, readFails, closeFails := d.writeFails, d.readFails, d.closeFails;
    }

    /**
     * readline(): the next line, or, once nothing more arrives, an empty read (the timeout) or a
     * raised error (ok false) when the device has gone away.
     */
    method ReadLine() returns (ok: bool, raw: string)
      modifies this
      ensures old(incoming) == [] ==> ok == !readFails && raw == [] && incoming == []
      ensures old(incoming) != [] ==> ok && raw == old(incoming)[0] && incoming == old(incoming)[1..]
      ensures written == old(written) && isOpen == old(isOpen)
    {
      ok := true;
      if incoming == [] {
        ok := !readFails;
        raw := [];
      } else {
        raw := incoming[0];
        incoming := incoming[1..];
      }
    }

    method Write(data: string) returns (ok: bool)
      modifies this
      ensures ok == !writeFails
      ensures written == if ok then old(written) + [data] else old(written)
      ensures incoming == old(incoming) && isOpen == old(isOpen)
    {
      ok := !writeFails;
      if ok {
        written := written + [data];
      }
    }

    method Close() returns (ok: bool)
      modifies this
      ensures ok == !closeFails
      ensures isOpen == (old(isOpen) && !ok)
      ensures incoming == old(incoming) && written == old(written)
    {
      ok := !closeFails;
      if ok {
        isOpen := false;
      }
    }
  }

  // ---------------------------------------------------------------------------------------
  // Collecting a response

  /** s.lower() starts with "ok" (the Kelvin sign lowers to 'k' as well). */
  predicate IsOkLine(s: string) {
    |s| >= 2 && (s[0] == 'o' || s[0] == 'O') && (s[1] == 'k' || s[1] == 'K' || s[1] == '\U{212A}')
  }

  /** The response lines gathered and the number of reads they took. */
  datatype Response = Response(lines: seq<string>, consumed: nat)

  /**
   * What _read_until_ok collects from the lines still to arrive: empty reads and blank lines are
   * skipped, the others are kept stripped, and reading stops right after the first "ok" line.
   */
  function Collect(incoming: seq<string>): (r: Response)
    ensures r.consumed <= |incoming|
    ensures r.consumed == 0 <==> incoming == []
  {
    if incoming == [] then Response([], 0)
    else
      var s := Strip(incoming[0]);
      if s == [] then
        var rest := Collect(incoming[1..]);
        Response(rest.lines, rest.consumed + 1)
      else if IsOkLine(s) then Response([s], 1)
      else
        var rest := Collect(incoming[1..]);
        Response([s] + rest.lines, rest.consumed + 1)
  }

  /**
   * Every collected line is stripped and non-blank; only the last can be an "ok" line, and it is one
   * whenever reading stopped before the queue ran out.
   */
  lemma CollectShape(incoming: seq<string>)
    ensures var r := Collect(incoming);
            && (forall i | 0 <= i < |r.lines| :: r.lines[i] != [] && Trimmed(r.lines[i]))
            && (forall i | 0 <= i < |r.lines| - 1 :: !IsOkLine(r.lines[i]))
            && (r.consumed < |incoming| ==> r.lines != [] && IsOkLine(r.lines[|r.lines| - 1]))
  {
    CollectTrimmed(incoming);
    CollectOkLast(incoming);
  }

  lemma {:induction false} CollectTrimmed(incoming: seq<string>)
    ensures forall i | 0 <= i < |Collect(incoming).lines| ::
              Collect(incoming).lines[i] != [] && Trimmed(Collect(incoming).lines[i])
  {
    if incoming != [] {
      var s := Strip(incoming[0]);
      if s == [] || !IsOkLine(s) {
        CollectTrimmed(incoming[1..]);
      }
      if s != [] && !IsOkLine(s) {
        var rest := Collect(incoming[1..]);
        var lines := [s] + rest.lines;
        assert Collect(incoming).lines == lines;
        forall i | 0 <= i < |lines| ensures lines[i] != [] && Trimmed(lines[i]) {
          if i > 0 { assert lines[i] == rest.lines[i - 1]; }
        }
      }
    }
  }

  lemma {:induction false} CollectOkLast(incoming: seq<string>)
    ensures forall i | 0 <= i < |Collect(incoming).lines| - 1 :: !IsOkLine(Collect(incoming).lines[i])
    ensures Collect(incoming).consumed < |incoming| ==>
              Collect(incoming).lines != [] && IsOkLine(Collect(incoming).lines[|Collect(incoming).lines| - 1])
  {
    if incoming != [] {
      var s := Strip(incoming[0]);
      if s == [] || !IsOkLine(s) {
        CollectOkLast(incoming[1..]);
      }
      if s != [] && !IsOkLine(s) {
        var rest := Collect(incoming[1..]);
        var lines := [s] + rest.lines;
        assert Collect(incoming) == Response(lines, rest.consumed + 1);
        forall i | 0 < i < |lines| ensures lines[i] == rest.lines[i - 1] {
        }
      }
    }
  }

  /** Keeping one more line: appending it, then the rest, is appending both. */
  lemma AppendOne(out: seq<string>, s: string, rest: seq<string>)
    ensures out + ([s] + rest) == (out + [s]) + rest
  {
  }

  /** What one line contributes to the response: its stripped text, or nothing when it is blank. */
  function KeptLine(line: string): seq<string> {
    if Strip(line) == [] then [] else [Strip(line)]
  }

  /** Reference definition: the stripped non-blank lines, in arrival order. */
  function Kept(lines: seq<string>): seq<string> {
    if lines == [] then [] else KeptLine(lines[0]) + Kept(lines[1..])
  }

  /** One more line read: its stripped text is kept unless it is blank. */
  lemma {:induction false} KeptSnoc(lines: seq<string>, line: string)
    ensures Kept(lines + [line]) == Kept(lines) + KeptLine(line)
  {
    if lines == [] {
      assert lines + [line] == [line];
    } else {
      var longer := lines + [line];
      assert longer[0] == lines[0] && longer[1..] == lines[1..] + [line];
      KeptSnoc(lines[1..], line);
      calc {
        Kept(longer);
        KeptLine(lines[0]) + Kept(lines[1..] + [line]);
        KeptLine(lines[0]) + (Kept(lines[1..]) + KeptLine(line));
        (KeptLine(lines[0]) + Kept(lines[1..])) + KeptLine(line);
      }
    }
  }

  /** When the i-th line is the first "ok" line, exactly the lines up to and including it are read. */
  lemma {:induction false} CollectStopsAtFirstOk(incoming: seq<string>, i: nat)
    requires i < |incoming| && IsOkLine(Strip(incoming[i]))
    requires forall j | 0 <= j < i :: !IsOkLine(Strip(incoming[j]))
    ensures Collect(incoming) == Response(Kept(incoming[..i + 1]), i + 1)
  {
    if i == 0 {
      assert Kept(incoming[..1]) == [Strip(incoming[0])] by {
        assert incoming[..1][1..] == [];
      }
    } else {
      var rest := incoming[1..];
      var s := Strip(incoming[0]);
      assert !IsOkLine(s);
      forall j | 0 <= j < i - 1 ensures !IsOkLine(Strip(rest[j])) {
        assert rest[j] == incoming[j + 1];
      }
      CollectStopsAtFirstOk(rest, i - 1);
      var pre := incoming[..i + 1];
      assert pre[0] == incoming[0] && pre[1..] == rest[..i];
      assert Kept(pre) == (if s == [] then [] else [s]) + Kept(rest[..i]);
    }
  }

  /** With no "ok" line at all, every line is read (the timeout) and every non-blank one is kept. */
  lemma {:induction false} CollectTimesOut(incoming: seq<string>)
    requires forall j | 0 <= j < |incoming| :: !IsOkLine(Strip(incoming[j]))
    ensures Collect(incoming) == Response(Kept(incoming), |incoming|)
  {
    if incoming != [] {
      CollectTimesOut(incoming[1..]);
    }
  }

  /** Reading stops at the first "ok" line: what was kept so far plus that line, the rest left unread. */
  lemma PendingStopsAtOk(start: seq<string>, read: seq<string>, line: string, rest: seq<string>)
    requires start == read + ([line] + rest) && IsOkLine(Strip(line))
    requires forall j | 0 <= j < |read| :: !IsOkLine(Strip(read[j]))
    ensures Collect(start).lines == Kept(read) + [Strip(line)]
    ensures start[Collect(start).consumed..] == rest
  {
    AppendOne(read, line, rest);
    assert start[..|read| + 1] == read + [line];
    assert start[|read| + 1..] == rest;
    CollectStopsAtFirstOk(start, |read|);
    KeptSnoc(read, line);
  }

  /** One more line read that is not an "ok" line: the loop's bookkeeping over the lines read so far carries over. */
  lemma PendingStep(start: seq<string>, read: seq<string>, line: string, rest: seq<string>)
    requires start == read + ([line] + rest) && !IsOkLine(Strip(line))
    requires forall j | 0 <= j < |read| :: !IsOkLine(Strip(read[j]))
    ensures start == (read + [line]) + rest
    ensures forall j | 0 <= j < |read + [line]| :: !IsOkLine(Strip((read + [line])[j]))
    ensures Kept(read + [line]) == Kept(read) + KeptLine(line)
  {
    AppendOne(read, line, rest);
    KeptSnoc(read, line);
  }

  /** Reading without an "ok" line consumes every line and keeps the non-blank ones. */
  lemma PendingTimesOut(start: seq<string>)
    requires forall j | 0 <= j < |start| :: !IsOkLine(Strip(start[j]))
    ensures Collect(start).lines == Kept(start)
    ensures start[Collect(start).consumed..] == []
  {
    CollectTimesOut(start);
  }

  /** Reading ran into the timeout: no "ok" line ended it. */
  predicate TimedOut(r: Response) {
    r.lines == [] || !IsOkLine(r.lines[|r.lines| - 1])
  }

  /** Reading times out exactly when none of the lines still to arrive strips to an "ok" line. */
  lemma {:induction false} TimedOutIffNoOk(incoming: seq<string>)
    ensures TimedOut(Collect(incoming)) <==> forall j | 0 <= j < |incoming| :: !IsOkLine(Strip(incoming[j]))
  {
    if incoming != [] {
      var s := Strip(incoming[0]);
      if !IsOkLine(s) {
        TimedOutIffNoOk(incoming[1..]);
        var rest := Collect(incoming[1..]);
        var lines := Collect(incoming).lines;
        if s == [] {
          assert lines == rest.lines;
        } else {
          assert lines == [s] + rest.lines;
          assert rest.lines != [] ==> lines[|lines| - 1] == rest.lines[|rest.lines| - 1];
        }
        assert TimedOut(Collect(incoming)) <==> TimedOut(rest);
        assert (forall j | 0 <= j < |incoming| :: !IsOkLine(Strip(incoming[j])))
           <==> (forall j | 0 <= j < |incoming| - 1 :: !IsOkLine(Strip(incoming[1..][j])));
      }
    }
  }

  /**
   * What _read_until_ok returns: the collected lines, unless reading ran into the timeout on a
   * device that has gone away, where the raised error propagates and the lines are lost.
   */
  function ReadOutcome(incoming: seq<string>, readFails: bool): (r: Result<seq<string>, BackendError>)
    ensures r.Err? ==> r.error == ReadFailed && readFails
    ensures r.Ok? ==> r.value == Collect(incoming).lines
  {
    var resp := Collect(incoming);
    if readFails && TimedOut(resp) then Err(ReadFailed) else Ok(resp.lines)
  }

  /** An "ok" line anywhere in the pending input ends the read before any read can fail. */
  lemma OkLineAvoidsReadFailure(incoming: seq<string>, i: nat)
    requires i < |incoming| && IsOkLine(Strip(incoming[i]))
    ensures ReadOutcome(incoming, true) == Ok(Collect(incoming).lines)
  {
    TimedOutIffNoOk(incoming);
  }

  /** What a send returns: the write's failure first, then the read's. */
  function SendOutcome(incoming: seq<string>, writeFails: bool, readFails: bool): Result<seq<string>, BackendError> {
    if writeFails then Err(WriteFailed) else ReadOutcome(incoming, readFails)
  }

  /** A line that holds the G-code the host sends over the port: the stripped command and "\n". */
  twostate predicate SentLine(p: SerialPort, line: string, new r: Result<seq<string>, BackendError>)
    reads p
  {
    && r == SendOutcome(old(p.incoming), p.writeFails, p.readFails)
    && p.isOpen == old(p.isOpen)
    && if p.writeFails then
         p.written == old(p.written) && p.incoming == old(p.incoming)
       else
         && p.written == old(p.written) + [line + "\n"]
         && p.incoming == old(p.incoming)[Collect(old(p.incoming)).consumed..]
  }

  function Unit(r: Result<seq<string>, BackendError>): Result<(), BackendError> {
    match r
    case Ok(_) => Ok(())
    case Err(e) => Err(e)
  }

  /** What a command that returns nothing (home, move_to) does with the port: SentLine without the lines. */
  twostate predicate SentCommand(p: SerialPort, line: string, new r: Result<(), BackendError>)
    reads p
  {
    SentLine(p, line, SendOutcome(old(p.incoming), p.writeFails, p.readFails))
    && r == Unit(SendOutcome(old(p.incoming), p.writeFails, p.readFails))
  }

  // ---------------------------------------------------------------------------------------
  // The backend

  class PrusaGcodeBackend {
    const port: Option<string>
    const baudrate: int
    const timeout: real
    /** The host's rendering of numbers in G-code words. */
    const render: NumberText
    var ser: SerialPort?
    var connected: bool
    var lastState: StateDict

    /** The serial port is held exactly while connected, and the cached state says so. */
    ghost predicate Valid()
      reads this
    {
      && (ser != null <==> connected)
      && (connected ==> port.Some? && port.value != [])
      && lastState == if connected then ConnectedState(port.value, baudrate) else DisconnectedState()
    }

    /** A new backend is disconnected; the defaults are baudrate 115200 and timeout 0.5. */
    constructor (port: Option<string>, baudrate: int, timeout: real, render: NumberText)
      ensures Valid()
      ensures this.port == port && this.baudrate == baudrate && this.timeout == timeout
      ensures this.render == render
      ensures ser == null && !connected && lastState == DisconnectedState()
    {
      this.port, this.baudrate, this.timeout, this.render := port, baudrate, timeout, render;
      ser, connected, lastState := null, false, DisconnectedState();
    }

    /**
     * _read_until_ok: collects the response lines until an "ok" line or the timeout. Once the
     * pending lines are used up, one more read either times out or raises.
     */
    method ReadUntilOk() returns (r: Result<seq<string>, BackendError>)
      requires ser != null
      modifies ser
      ensures r == ReadOutcome(old(ser.incoming), ser.readFails)
      ensures ser.incoming == old(ser.incoming)[Collect(old(ser.incoming)).consumed..]
      ensures ser.written == old(ser.written) && ser.isOpen == old(ser.isOpen)
    {
      var out, sawOk := ReadPending();
      if !sawOk {
        var ok, _ := ser.ReadLine();
        if !ok {
          return Err(ReadFailed);
        }
      }
      r := Ok(out);
    }

    /** The loop of _read_until_ok over the lines still to arrive; sawOk when an "ok" line ended it. */
    method ReadPending() returns (out: seq<string>, sawOk: bool)
      requires ser != null
      modifies ser
      ensures out == Collect(old(ser.incoming)).lines
      ensures sawOk <==> !TimedOut(Collect(old(ser.incoming)))
      ensures ser.incoming == old(ser.incoming)[Collect(old(ser.incoming)).consumed..]
      ensures !sawOk ==> ser.incoming == []
      ensures ser.written == old(ser.written) && ser.isOpen == old(ser.isOpen)
    {
      out := [];
      sawOk := false;
      ghost var start := ser.incoming;
      ghost var read: seq<string> := [];
      while ser.incoming != []
        invariant start == read + ser.incoming
        invariant out == Kept(read)
        invariant forall j | 0 <= j < |read| :: !IsOkLine(Strip(read[j]))
        invariant ser.written == old(ser.written) && ser.isOpen == old(ser.isOpen)
        decreases |ser.incoming|
      {
        ghost var before := ser.incoming;
        ghost var line := before[0];
        var s := ReadStripped();
        assert before == [line] + ser.incoming;
        if s != [] && IsOkLine(s) {
          PendingStopsAtOk(start, read, line, ser.incoming);
          out := out + [s];
          sawOk := true;
          break;
        }
        assert KeptLine(line) == (if s == [] then [] else [s]);
        PendingStep(start, read, line, ser.incoming);
        read := read + [line];
        if s != [] {
          out := out + [s];
        }
      }
      if !sawOk {
        assert read == start;
        PendingTimesOut(start);
      }
      TimedOutIffNoOk(start);
    }

    /** One read of the loop: an empty read or a blank line gives [], any other line its stripped text. */
    method ReadStripped() returns (s: string)
      requires ser != null && ser.incoming != []
      modifies ser
      ensures s == Strip(old(ser.incoming)[0]) && ser.incoming == old(ser.incoming)[1..]
      ensures ser.written == old(ser.written) && ser.isOpen == old(ser.isOpen)
    {
      var _, raw := ser.ReadLine();
      if raw == [] {
        return [];
      }
      s := Strip(raw);
    }

    /** send_gcode: writes the stripped command and a line feed, then collects the response. */
    method SendGcode(cmd: string) returns (r: Result<seq<string>, BackendError>)
      requires Valid()
      modifies ser
      ensures !old(connected) ==> r == Err(NotConnected)
      ensures old(connected) && Strip(cmd) == [] ==> r == Ok([]) && unchanged(ser)
      ensures old(connected) && Strip(cmd) != [] ==> SentLine(ser, Strip(cmd), r)
    {
      if !connected || ser == null {
        return Err(NotConnected);
      }
      var line := Strip(cmd);
      if line == [] {
        return Ok([]);
      }
      var ok := ser.Write(line + "\n");
      if !ok {
        return Err(WriteFailed);
      }
      r := ReadUntilOk();
    }

    /** connect: opens the port and sends only G90 (absolute positioning), ignoring its failure. */
    method Connect(pyserialInstalled: bool, device: Option<Device>) returns (r: Result<(), BackendError>)
      requires Valid()
      modifies this
      ensures Valid()
      ensures !pyserialInstalled ==> r == Err(PyserialMissing) && unchanged(this)
      ensures pyserialInstalled && (port.None? || port.value == []) ==> r == Err(PortNotSet) && unchanged(this)
      ensures pyserialInstalled && port.Some? && port.value != [] && device.None? ==>
                r == Err(OpenFailed) && unchanged(this)
      ensures pyserialInstalled && port.Some? && port.value != [] && device.Some? ==>
                && r == Ok(())
                && connected && fresh(ser) && ser.isOpen
                && lastState == ConnectedState(port.value, baudrate)
                && ser.writeFails == device.value.writeFails && ser.readFails == device.value.readFails
                && ser.closeFails == device.value.closeFails
                && var replies := device.value.replies;
                   if device.value.writeFails then ser.written == [] && ser.incoming == replies
                   else ser.written == [AbsoluteModeCommand + "\n"]
                        && ser.incoming == replies[Collect(replies).consumed..]
    {
      if !pyserialInstalled {
        return Err(PyserialMissing);
      }
      if port.None? || port.value == [] {
        return Err(PortNotSet);
      }
      if device.None? {
        return Err(OpenFailed);
      }
      ser := new SerialPort.Open(device.value);
      connected := true;
      lastState := ConnectedState(port.value, baudrate);
      StripTrimmed(AbsoluteModeCommand);
      var _ := SendGcode(AbsoluteModeCommand);
      r := Ok(());
    }

    /** disconnect: closes the port if any (ignoring a failing close) and always ends disconnected. */
    method Disconnect()
      requires Valid()
      modifies this, ser
      ensures Valid()
      ensures ser == null && !connected && lastState == DisconnectedState()
      ensures old(ser) != null ==>
                && old(ser).isOpen == (old(ser.isOpen) && old(ser).closeFails)
                && old(ser).written == old(ser.written) && old(ser).incoming == old(ser.incoming)
    {
      if ser != null {
        var _ := ser.Close();
      }
      ser := null;
      connected := false;
      lastState := DisconnectedState();
    }

    /** home: sends G28, which moves the printer. */
    method Home() returns (r: Result<(), BackendError>)
      requires Valid()
      modifies ser
      ensures !old(connected) ==> r == Err(NotConnected)
      ensures old(connected) ==> SentCommand(ser, HomeCommand, r)
    {
      StripTrimmed(HomeCommand);
      var resp := SendGcode(HomeCommand);
      r := Unit(resp);
    }

    /** move_to: sends "G1" with an X, Y, Z, F word for each argument that is not None. */
    method MoveTo(x: Option<real>, y: Option<real>, z: Option<real>, feedrate: Option<real>)
      returns (r: Result<(), BackendError>)
      requires Valid()
      modifies ser
      ensures !old(connected) ==> r == Err(NotConnected)
      ensures old(connected) ==> SentCommand(ser, MoveCommand(x, y, z, feedrate, render), r)
    {
      var cmd := MoveCommand(x, y, z, feedrate, render);
      MoveCommandTokens(x, y, z, feedrate, render);
      StripTrimmed(cmd);
      var resp := SendGcode(cmd);
      r := Unit(resp);
    }

    /** get_state: a copy of the cached state. */
    method GetState() returns (s: StateDict)
      ensures s == lastState
    {
      s := lastState;
    }

    /** emergency_stop: sends M112 and disconnects whatever happened; an error of the send propagates. */
    method EmergencyStop() returns (r: Result<(), BackendError>)
      requires Valid()
      modifies this, ser
      ensures Valid()
      ensures ser == null && !connected && lastState == DisconnectedState()
      ensures !old(connected) ==> r == Err(NotConnected)
      ensures old(connected) ==>
                && old(ser).isOpen == (old(ser.isOpen) && old(ser).closeFails)
                && r == Unit(SendOutcome(old(ser.incoming), old(ser).writeFails, old(ser).readFails))
                && old(ser).written
                   == if old(ser).writeFails then old(ser.written) else old(ser.written) + [EmergencyStopCommand + "\n"]
    {
      StripTrimmed(EmergencyStopCommand);
      var resp := SendGcode(EmergencyStopCommand);
      r := Unit(resp);
      Disconnect();
    }
  }
}
