/**
 * The data side of interface/layout/live_plot_area.py: three parallel sample buffers (Z position,
 * amplitude, tip current) that keep at most the newest 150 samples for plotting.
 */
module LivePlotArea {

  /** The buffer bound update_data enforces. */
  const MaxSamples: nat := 150

  /**
   * One buffer after update_data appends v: when the Z buffer held zLen samples before the
   * append and now holds more than 150, the oldest sample is dropped.
   */
  function Push(buffer: seq<real>, v: real, zLen: nat): seq<real> {
    var appended := buffer + [v];
    if zLen + 1 > MaxSamples then appended[1..] else appended
  }

  /** The newest k elements of s, in order (all of s if it is shorter). */
  function Newest(s: seq<real>, k: nat): (r: seq<real>)
    ensures |r| <= k && |r| <= |s|
  {
    if |s| <= k then s else s[|s| - k..]
  }

  /** A buffer fed the values vs one update at a time. */
  function Feed(buffer: seq<real>, vs: seq<real>): seq<real>
    decreases |vs|
  {
    if vs == [] then buffer else Feed(Push(buffer, vs[0], |buffer|), vs[1..])
  }

  /** One push on a buffer within the bound is the newest 150 of buffer + [v]: the new value last, the rest in order. */
  lemma PushIsWindow(buffer: seq<real>, v: real)
    requires |buffer| <= MaxSamples
    ensures Push(buffer, v, |buffer|) == Newest(buffer + [v], MaxSamples)
    ensures |Push(buffer, v, |buffer|)| <= MaxSamples
    ensures Push(buffer, v, |buffer|)[|Push(buffer, v, |buffer|)| - 1] == v
  {
  }

  /** Dropping the oldest element of a sequence longer than 150 does not change its newest 150. */
  lemma NewestDropFirst(all: seq<real>)
    requires |all| > MaxSamples
    ensures Newest(all[1..], MaxSamples) == Newest(all, MaxSamples)
  {
    if |all| - 1 > MaxSamples {
      assert all[1..][|all| - 1 - MaxSamples..] == all[|all| - MaxSamples..];
    }
  }

  /**
   * FIFO window: starting within the bound, any sequence of updates leaves exactly the newest
   * 150 of all values seen, oldest first.
   */
  lemma {:induction false} FeedIsWindow(buffer: seq<real>, vs: seq<real>)
    requires |buffer| <= MaxSamples
    ensures Feed(buffer, vs) == Newest(buffer + vs, MaxSamples)
    decreases |vs|
  {
    if vs != [] {
      var next := Push(buffer, vs[0], |buffer|);
      assert |next| <= MaxSamples;
      FeedIsWindow(next, vs[1..]);
      var all := buffer + vs;
      if |buffer| + 1 > MaxSamples {
        assert next + vs[1..] == all[1..];
        NewestDropFirst(all);
      } else {
        assert next + vs[1..] == all;
      }
    }
  }

  class LivePlotArea {
    var zData: seq<real>
    var ampData: seq<real>
    var tipCurrentData: seq<real>

    /** The three buffers have one entry per update and hold at most 150 samples. */
    predicate Valid()
      reads this
    {
      |zData| == |ampData| == |tipCurrentData| && |zData| <= MaxSamples
    }

    constructor ()
      ensures Valid()
      ensures zData == [] && ampData == [] && tipCurrentData == []
    {
      zData, ampData, tipCurrentData := [], [], [];
    }

    /**
     * update_data(z, amp, tip_current): append each value to its buffer; if the Z buffer then
     * exceeds 150 samples, drop the oldest sample of all three.
     */
    method UpdateData(zValue: real, ampValue: real, tipCurrentValue: real)
      modifies this
      ensures zData == Push(old(zData), zValue, |old(zData)|)
      ensures ampData == Push(old(ampData), ampValue, |old(zData)|)
      ensures tipCurrentData == Push(old(tipCurrentData), tipCurrentValue, |old(zData)|)
      ensures old(Valid()) ==> Valid()
    {
      zData := zData + [zValue];
      ampData := ampData + [ampValue];
      tipCurrentData := tipCurrentData + [tipCurrentValue];
      if |zData| > MaxSamples {
        zData := zData[1..];
        ampData := ampData[1..];
        tipCurrentData := tipCurrentData[1..];
      }
    }
  }
}
