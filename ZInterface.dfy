/** The Z-driver factory: picks the hardware (Arduino) driver or the simulated one from a mode value. */
module ZInterface {
  import opened Results

  /** The mode argument is dynamically typed: callers pass strings, the scan modes pass a bool. */
  datatype ModeArg = Text(s: string) | Flag(b: bool)

  /** The driver class the factory instantiates. */
  datatype DriverKind = ArduinoZDriver | SimulatedZDriver

  const DefaultMode: ModeArg := Text("simulated")

  /** get_z_driver(mode): the Arduino driver exactly when mode equals the string 'hardware'. */
  function GetZDriver(mode: ModeArg): (d: DriverKind)
    ensures d == ArduinoZDriver <==> mode == Text("hardware")
    ensures d == SimulatedZDriver <==> mode != Text("hardware")
  {
    if mode == Text("hardware") then ArduinoZDriver else SimulatedZDriver
  }

  /** The default mode 'simulated' yields the simulated driver. */
  lemma DefaultModeIsSimulated()
    ensures GetZDriver(DefaultMode) == SimulatedZDriver
  {
  }

  /** A bool never equals the string 'hardware', so a scan mode gets the simulated driver even with True. */
  lemma BoolModeIsSimulated(hardwareMode: bool)
    ensures GetZDriver(Flag(hardwareMode)) == SimulatedZDriver
  {
  }

  /** The methods each driver class defines. */
  function DriverMethods(d: DriverKind): set<string> {
    match d
    case ArduinoZDriver => {"move_to", "get_position", "close"}
    case SimulatedZDriver => {"move_to", "get_position", "close"}
  }

  /** A method call on a driver object as the scan modes write it: AttributeError when the class lacks it. */
  function CallAsWritten(d: DriverKind, name: string): (r: Result<(), PyError>)
    ensures r.Err? <==> name !in DriverMethods(d)
  {
    if name in DriverMethods(d) then Ok(()) else Err(AttributeError)
  }

  /**
   * As written, the scan modes' driver calls initialize(), set_z_position() and shutdown() all raise
   * AttributeError: the factory hands them a SimulatedZDriver, which has none of those methods.
   */
  lemma ScanModeDriverCallsFail(hardwareMode: bool)
    ensures CallAsWritten(GetZDriver(Flag(hardwareMode)), "initialize") == Err(AttributeError)
    ensures CallAsWritten(GetZDriver(Flag(hardwareMode)), "set_z_position") == Err(AttributeError)
    ensures CallAsWritten(GetZDriver(Flag(hardwareMode)), "shutdown") == Err(AttributeError)
  {
  }
}
