/**
 * The Z driver the scan modes talk to: initialize(), set_z_position(z) and shutdown(). No driver in
 * the repository has these methods; this object records the calls in order.
 */
module ScanZDriver {

  datatype DriverCall = Initialize | SetZPosition(z: real) | Shutdown

  class ScanZDriver {
    var calls: seq<DriverCall>

    constructor ()
      ensures calls == []
    {
      calls := [];
    }

    method Initialize()
      modifies this
      ensures calls == old(calls) + [DriverCall.Initialize]
    {
      calls := calls + [DriverCall.Initialize];
    }

    method SetZPosition(z: real)
      modifies this
      ensures calls == old(calls) + [DriverCall.SetZPosition(z)]
    {
      calls := calls + [DriverCall.SetZPosition(z)];
    }

    method Shutdown()
      modifies this
      ensures calls == old(calls) + [DriverCall.Shutdown]
    {
      calls := calls + [DriverCall.Shutdown];
    }
  }
}
