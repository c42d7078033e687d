/**
 * The state every scan mode shares: its configuration, the current cursor position and the data
 * buffer of recorded samples. The buffer is an object of its own, because get_data() hands out the
 * live buffer rather than a copy.
 */
module BaseScanMode {
  import opened Results
  import opened ScanConfig

  /** One recorded sample (x, y, z). */
  datatype Sample = Sample(x: real, y: real, z: real)

  /** What perform_step() reports. */
  datatype StepStatus = Running | Done

  /** The live data buffer (a Python list). */
  class SampleBuffer {
    var items: seq<Sample>

    constructor ()
      ensures items == []
    {
      items := [];
    }

    method Append(s: Sample)
      modifies this
      ensures items == old(items) + [s]
    {
      items := items + [s];
    }

    method Clear()
      modifies this
      ensures items == []
    {
      items := [];
    }
  }

  /** config or {}: None (the only falsy configuration modelled) becomes the empty dictionary. */
  function EffectiveConfig(config: Option<Config>): (c: Config)
    ensures config.None? ==> c == map[]
    ensures config.Some? ==> c == config.value
  {
    config.GetOr(map[])
  }

  class ScanState {
    /** set_config() accepts anything, None included, so the field is optional. */
    var config: Option<Config>
    var currentPosition: (real, real)
    const dataBuffer: SampleBuffer

    /** A new mode starts at (0, 0) with an empty buffer, and config None becomes {}. */
    constructor (config: Option<Config>)
      ensures this.config == Some(EffectiveConfig(config))
      ensures currentPosition == (0.0, 0.0)
      ensures fresh(dataBuffer) && dataBuffer.items == []
    {
      this.config := Some(EffectiveConfig(config));
      currentPosition := (0.0, 0.0);
      dataBuffer := new SampleBuffer();
    }

    /** get_data(): the live buffer itself, so later appends are visible through the result. */
    method GetData() returns (b: SampleBuffer)
      ensures b == dataBuffer
    {
      b := dataBuffer;
    }

    /** set_config(config): replaces the configuration and nothing else. */
    method SetConfig(config: Option<Config>)
      modifies this
      ensures this.config == config
      ensures currentPosition == old(currentPosition)
    {
      this.config := config;
    }
  }

  /** Appending to the buffer obtained from get_data() is seen by the scan state afterwards. */
  method GetDataAliases(state: ScanState, s: Sample) returns (seen: seq<Sample>)
    modifies state.dataBuffer
    ensures seen == old(state.dataBuffer.items) + [s]
  {
    var b := state.GetData();
    b.Append(s);
    seen := state.dataBuffer.items;
  }
}
