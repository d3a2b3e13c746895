/**
 * The audio helpers of core/audio.py: the gain stage with clipping and the
 * listing of input devices. The sound library is outside the model: the
 * device list it reports is a parameter, and the linear gain factor
 * `10 ** (gain_db / 20)` is a parameter `g` supplied with `gain_db`.
 */
module Audio {
  import opened Wrappers
  import opened Values
  import Text

  /** `np.clip(v, -1.0, 1.0)` on one sample. */
  function Clip(v: real): (r: real)
    ensures -1.0 <= r <= 1.0
    ensures -1.0 <= v <= 1.0 ==> r == v
    ensures v < -1.0 ==> r == -1.0
    ensures v > 1.0 ==> r == 1.0
  {
    if v < -1.0 then -1.0 else if v > 1.0 then 1.0 else v
  }

  /** `np.clip(x * g, -1.0, 1.0)` on a whole signal. */
  function ScaleClip(x: seq<real>, g: real): (y: seq<real>)
    ensures |y| == |x|
    ensures forall i :: 0 <= i < |y| ==> y[i] == Clip(x[i] * g)
  {
    var f := (v: real) => Clip(v * g);
    seq(|x|, i requires 0 <= i < |x| => f(x[i]))
  }

  /** `apply_gain` (core/audio.py:45-49): a zero gain (falsy in Python)
      hands the input back untouched; any other gain scales every sample by
      `g` and clips it to [-1, 1]. */
  function ApplyGain(x: seq<real>, gainDb: real, g: real): (y: seq<real>)
    ensures |y| == |x|
    ensures gainDb == 0.0 ==> y == x
    ensures gainDb != 0.0 ==> forall i :: 0 <= i < |y| ==> y[i] == Clip(x[i] * g)
  {
    if gainDb == 0.0 then x else ScaleClip(x, g)
  }

  /** With a non-zero gain every output sample lies in [-1, 1]; with a zero
      gain nothing is clipped, even samples outside that range. */
  lemma GainBounded(x: seq<real>, gainDb: real, g: real)
    ensures gainDb != 0.0 ==> forall i :: 0 <= i < |x| ==> -1.0 <= ApplyGain(x, gainDb, g)[i] <= 1.0
    ensures gainDb == 0.0 ==> ApplyGain(x, gainDb, g) == x
  {
  }

  /** Clipping is idempotent: clipping the output of the gain stage again,
      without further scaling, changes nothing. */
  lemma GainClipIdempotent(x: seq<real>, g: real)
    ensures ScaleClip(ScaleClip(x, g), 1.0) == ScaleClip(x, g)
  {
    var y := ScaleClip(x, g);
    var z := ScaleClip(y, 1.0);
    forall i | 0 <= i < |x|
      ensures z[i] == y[i]
    {
      assert y[i] * 1.0 == y[i];
    }
  }

  /** One device description as the sound library reports it. */
  type DeviceInfo = map<string, Value>

  /** One entry of the listing. */
  datatype InputDevice = InputDevice(index: nat, name: Value, hostapi: Value, sr: Value, channels: Value)

  /** The entry for device `idx`: its name (or "Device <idx>"), host API,
      default sample rate and input channel count (`None` when absent). */
  function Describe(dev: DeviceInfo, idx: nat): (d: InputDevice)
    ensures d.index == idx
    ensures "name" !in dev ==> d.name == VStr("Device " + Text.NatToString(idx))
  {
    InputDevice(idx,
                Get(dev, "name", VStr("Device " + Text.NatToString(idx))),
                Get(dev, "hostapi", VNone),
                Get(dev, "default_samplerate", VNone),
                Get(dev, "max_input_channels", VNone))
  }

  /** `dev.get("max_input_channels", 0) > 0`; `None` when the comparison
      raises. */
  function HasInput(dev: DeviceInfo): Option<bool> {
    PyPositive(Get(dev, "max_input_channels", VInt(0)))
  }

  /** The listing of the devices from position `i` on: devices with input
      channels are described, the others skipped, and the first comparison
      that raises ends the listing. */
  function ListFrom(devs: seq<DeviceInfo>, i: nat): seq<InputDevice>
    decreases |devs| - i
  {
    if i >= |devs| then []
    else match HasInput(devs[i])
      case None => []
      case Some(true) => [Describe(devs[i], i)] + ListFrom(devs, i + 1)
      case Some(false) => ListFrom(devs, i + 1)
  }

  /** `list_input_devices` (core/audio.py:11-23). `query` is what
      `sd.query_devices()` returned, `None` when it raised. Any exception
      ends the loop and the devices collected so far are returned. */
  method ListInputDevices(query: Option<seq<DeviceInfo>>) returns (out: seq<InputDevice>)
    ensures query.None? ==> out == []
    ensures query.Some? ==> out == ListFrom(query.value, 0)
  {
    out := [];
    if query.None? {
      return;
    }
    var devs := query.value;
    var idx := 0;
    while idx < |devs|
      invariant 0 <= idx <= |devs|
      invariant out + ListFrom(devs, idx) == ListFrom(devs, 0)
    {
      var positive := HasInput(devs[idx]);
      if positive.None? {
        return;
      }
      if positive.value {
        out := out + [Describe(devs[idx], idx)];
      }
      idx := idx + 1;
    }
  }

  /** Every listed entry describes a device with input channels, at its
      position in the full list, and positions strictly increase. */
  lemma {:induction false} ListedAreInputs(devs: seq<DeviceInfo>, i: nat)
    ensures forall e :: e in ListFrom(devs, i) ==>
              i <= e.index < |devs| && HasInput(devs[e.index]) == Some(true)
              && e == Describe(devs[e.index], e.index)
    ensures forall k, k' :: 0 <= k < k' < |ListFrom(devs, i)| ==>
              ListFrom(devs, i)[k].index < ListFrom(devs, i)[k'].index
    decreases |devs| - i
  {
    if i < |devs| && HasInput(devs[i]).Some? {
      ListedAreInputs(devs, i + 1);
      var rest := ListFrom(devs, i + 1);
      if HasInput(devs[i]) == Some(true) {
        var l := [Describe(devs[i], i)] + rest;
        assert ListFrom(devs, i) == l;
        forall k, k' | 0 <= k < k' < |l|
          ensures l[k].index < l[k'].index
        {
          assert l[k'] == rest[k' - 1] && rest[k' - 1] in rest;
          if k > 0 {
            assert l[k] == rest[k - 1];
          }
        }
      }
    }
  }

  /** Every device with input channels that comes before the first device
      whose channel comparison raises is listed. */
  lemma {:induction false} ListedComplete(devs: seq<DeviceInfo>, i: nat, j: nat)
    requires i <= j < |devs|
    requires forall k :: i <= k <= j ==> HasInput(devs[k]).Some?
    requires HasInput(devs[j]) == Some(true)
    ensures Describe(devs[j], j) in ListFrom(devs, i)
    decreases |devs| - i
  {
    if j > i {
      ListedComplete(devs, i + 1, j);
    }
  }

  /** A device whose channel count cannot be compared ends the listing:
      nothing after it is listed. */
  lemma {:induction false} ListingStopsAtError(devs: seq<DeviceInfo>, i: nat, j: nat)
    requires i <= j < |devs| && HasInput(devs[j]).None?
    ensures forall e :: e in ListFrom(devs, i) ==> e.index < j
    decreases |devs| - i
  {
    if i < j && HasInput(devs[i]).Some? {
      ListingStopsAtError(devs, i + 1, j);
    }
  }
}
