/**
 * The player's `PlayerExperience`: the orientation calibration state (the
 * `orientation_offset` and `ori` arrays), the device-orientation callback
 * that turns a raw azimuth into a listener orientation, the touch-end reset
 * and the looping sound started by `init`.
 *
 * The spatial sources handler is an opaque collaborator: each call the
 * experience makes on it is appended to `spatCalls`.
 */
module PlayerClient {

  import opened Common

  /** A call on the spatial sources handler. `PlaySound` carries `None` when
      the buffer read is `undefined`. */
  datatype SpatCall =
    | PlaySound(buffer: Option<BufferId>, pos: seq<real>, srcId: nat, loop: bool)
    | SetListenerOrientation(ori: seq<real>)

  /** The azimuth relative to the calibration offset. */
  function Relative(raw: real, offset: real): (r: real)
    ensures r + offset == raw
  {
    raw - offset
  }

  /** The listener orientation sent for a relative azimuth. */
  function ListenerView(rel: real): (v: seq<real>)
    ensures |v| == 3 && v[0] == -rel && v[1] == 0.0 && v[2] == -1.0
  {
    [-rel, 0.0, -1.0]
  }

  /** The first entry of the loader's buffer list, `undefined` when there is none. */
  function FirstBuffer(buffers: seq<BufferId>): (r: Option<BufferId>)
    ensures r.Some? <==> |buffers| > 0
    ensures r.Some? ==> r.value == buffers[0]
  {
    if |buffers| > 0 then Some(buffers[0]) else None
  }

  class PlayerExperience {
    /** `orientation_offset`: the calibration subtracted from raw samples. */
    var orientationOffset: array<real>
    /** `ori`: the last relative orientation. */
    var ori: array<real>
    /** The loader's buffers, in file order. */
    var buffers: seq<BufferId>
    /** The calls made on the current spatial sources handler. */
    var spatCalls: seq<SpatCall>

    ghost predicate Valid()
      reads this
    {
      orientationOffset.Length == 3 && ori.Length == 3 && orientationOffset != ori
    }

    /** The azimuth part of the calibration state. */
    ghost function Calib(): Calibration
      reads this, orientationOffset, ori
      requires Valid()
    {
      Calibration(orientationOffset[0], ori[0])
    }

    constructor (buffers: seq<BufferId>)
      ensures Valid() && fresh(orientationOffset) && fresh(ori)
      ensures orientationOffset[..] == [0.0, 0.0, 0.0] && ori[..] == [0.0, 0.0, 0.0]
      ensures this.buffers == buffers && spatCalls == []
    {
      orientationOffset := new real[3] [0.0, 0.0, 0.0];
      ori := new real[3] [0.0, 0.0, 0.0];
      this.buffers := buffers;
      spatCalls := [];
    }

    /** `init`: a new spatial sources handler, on which the first buffer is
        played at `[1, 0, 1]` in slot 0, looping. */
    method Init()
      requires Valid()
      modifies this`spatCalls
      ensures spatCalls == [PlaySound(FirstBuffer(buffers), [1.0, 0.0, 1.0], 0, true)]
    {
      spatCalls := [];
      var pos := [1.0, 0.0, 1.0];
      spatCalls := spatCalls + [PlaySound(FirstBuffer(buffers), pos, 0, true)];
    }

    /** The `deviceorientation` listener: makes `data[0]` relative to the
        offset, stores it in `ori[0]` and sets the listener orientation. */
    method OnDeviceOrientation(data: array<real>)
      requires Valid()
      requires data.Length >= 1 && data != ori && data != orientationOffset
      modifies data, ori, this`spatCalls
      ensures Valid()
      ensures data[..] == old(data[..])[0 := Relative(old(data[0]), orientationOffset[0])]
      ensures ori[..] == old(ori[..])[0 := Relative(old(data[0]), orientationOffset[0])]
      ensures orientationOffset[..] == old(orientationOffset[..])
      ensures spatCalls == old(spatCalls) + [SetListenerOrientation(ListenerView(Relative(old(data[0]), orientationOffset[0])))]
      ensures Calib() == Observe(old(Calib()), old(data[0]))
    {
      data[0] := data[0] - orientationOffset[0];
      ori[0] := data[0];
      spatCalls := spatCalls + [SetListenerOrientation([-data[0], 0.0, -1.0])];
    }

    /** The `touchend` listener: the last relative orientation becomes the offset. */
    method OnTouchEnd()
      requires Valid()
      modifies orientationOffset
      ensures Valid()
      ensures orientationOffset[..] == old(orientationOffset[..])[0 := ori[0]]
      ensures ori[..] == old(ori[..])
      ensures old(orientationOffset[0]) == ori[0] ==> orientationOffset[..] == old(orientationOffset[..])
      ensures Calib() == ResetAsWritten(old(Calib()))
    {
      orientationOffset[0] := ori[0];
    }
  }

  /** The calibration state along the azimuth: `orientation_offset[0]` and `ori[0]`. */
  datatype Calibration = Calibration(offset: real, ori: real)

  /** A raw azimuth sample, as the device-orientation listener handles it. */
  function Observe(c: Calibration, raw: real): (c': Calibration)
    ensures c'.offset == c.offset && c'.ori + c.offset == raw
  {
    Calibration(c.offset, Relative(raw, c.offset))
  }

  /** The touch-end reset as written: the relative azimuth becomes the offset. */
  function ResetAsWritten(c: Calibration): (c': Calibration)
    ensures c'.ori == c.ori && c'.offset == c.ori
  {
    Calibration(c.ori, c.ori)
  }

  /** The reset as evidently intended: the raw azimuth of the last sample
      (the relative one plus the offset it was taken with) becomes the offset. */
  function ResetCorrected(c: Calibration): (c': Calibration)
    ensures c'.ori == c.ori && c'.offset == c.ori + c.offset
  {
    Calibration(c.ori + c.offset, c.ori)
  }

  /** With the corrected reset, holding the device where it was when the
      screen was touched reads as azimuth 0, whatever the earlier calibration. */
  lemma ResetCorrectedRecentres(c: Calibration, raw: real)
    ensures Observe(ResetCorrected(Observe(c, raw)), raw).ori == 0.0
  {
    var s := Observe(c, raw);
    assert s.ori + c.offset == raw;
    var r := ResetCorrected(s);
    assert r.offset == raw;
  }

  /** The reset as written recentres only a calibration whose offset is 0. */
  lemma ResetAsWrittenRecentresOnlyFromZero(c: Calibration, raw: real)
    ensures Observe(ResetAsWritten(Observe(c, raw)), raw).ori == c.offset
  {
    var s := Observe(c, raw);
    assert s.ori == raw - c.offset;
  }

  /** The input that shows it: from the initial calibration, sample 10, touch,
      sample 30, touch, and hold the device at 30: it reads 10, not 0. */
  lemma ResetAsWrittenCounterexample()
    ensures
      var c1 := ResetAsWritten(Observe(Calibration(0.0, 0.0), 10.0));
      var c2 := ResetAsWritten(Observe(c1, 30.0));
      Observe(c2, 30.0).ori == 10.0
  {
    var c1 := ResetAsWritten(Observe(Calibration(0.0, 0.0), 10.0));
    assert c1 == Calibration(10.0, 10.0);
    var c2 := ResetAsWritten(Observe(c1, 30.0));
    assert c2 == Calibration(20.0, 20.0);
  }
}
