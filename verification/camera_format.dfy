/**
 * Choosing the back camera and its capture format. Both overlay screens use the
 * same rule: the first format that records 1920x1080 and can run at 30 fps,
 * otherwise the device's first format, and nothing when there is none.
 */
module CameraFormat {
  import opened Wrappers

  datatype Position = Back | Front | External

  /** A capture format the device offers. */
  datatype Format = Format(videoWidth: real, videoHeight: real, minFps: real, maxFps: real)

  /** A camera device; `formats` may be missing. */
  datatype Device = Device(position: Position, formats: Option<seq<Format>>)

  const DesiredWidth: real := 1920.0
  const DesiredHeight: real := 1080.0
  const DesiredFps: real := 30.0

  /** The `find` callback of the format search. */
  predicate IsDesired(f: Format)
  {
    f.videoWidth == DesiredWidth && f.videoHeight == DesiredHeight &&
    f.minFps <= DesiredFps && DesiredFps <= f.maxFps
  }

  /** `s.findIndex(p)`, with `None` for -1: the first index whose element satisfies `p`. */
  function FindIndex<T>(s: seq<T>, p: T -> bool): (r: Option<nat>)
    ensures r.Some? ==> r.value < |s| && p(s[r.value]) && forall j :: 0 <= j < r.value ==> !p(s[j])
    ensures r.None? ==> forall j :: 0 <= j < |s| ==> !p(s[j])
  {
    if s == [] then None
    else if p(s[0]) then Some(0)
    else match FindIndex(s[1..], p)
      case None => None
      case Some(k) => Some(k + 1)
  }

  /** `s.find(p)`: the first element satisfying `p`, or `undefined`. */
  function Find<T>(s: seq<T>, p: T -> bool): Option<T>
  {
    match FindIndex(s, p)
    case None => None
    case Some(k) => Some(s[k])
  }

  /**
   * The `format` memo: `formats.find(IsDesired) || formats[0]`; `formats` is `None` when
   * there is no back camera or it lists no formats (`device?.formats`).
   */
  function SelectFormat(formats: Option<seq<Format>>): (r: Option<Format>)
    ensures r.None? <==> formats.None? || formats.value == []
    ensures formats.Some? && (exists i :: 0 <= i < |formats.value| && IsDesired(formats.value[i])) ==>
              r.Some? && IsDesired(r.value) &&
              exists k :: 0 <= k < |formats.value| && formats.value[k] == r.value &&
                          forall j :: 0 <= j < k ==> !IsDesired(formats.value[j])
    ensures formats.Some? && formats.value != [] &&
            (forall i :: 0 <= i < |formats.value| ==> !IsDesired(formats.value[i])) ==>
              r == Some(formats.value[0])
  {
    if formats.None? then None
    else match Find(formats.value, IsDesired)
      case Some(f) => Some(f)
      case None => if formats.value == [] then None else Some(formats.value[0])
  }

  /** `devices.find(d => d.position === 'back')` */
  function BackDevice(devices: seq<Device>): (r: Option<Device>)
    ensures r.Some? ==> r.value.position == Back && r.value in devices
    ensures r.None? ==> forall d :: d in devices ==> d.position != Back
    ensures r.Some? ==> exists k :: 0 <= k < |devices| && devices[k] == r.value &&
                          forall j :: 0 <= j < k ==> devices[j].position != Back
  {
    Find(devices, (d: Device) => d.position == Back)
  }
}
