/**
 * The shapes shared by the detector, the coordinate transform and the overlay:
 * the `PoseType` record of twelve body landmarks and the pose detector's options.
 * Coordinates are JavaScript numbers, modelled as `real` (no rounding).
 */
module Types {
  import opened Wrappers

  /** An `{x, y}` position. */
  datatype Point = Point(x: real, y: real)

  /** The "absent" sentinel every landmark starts from. */
  const Origin: Point := Point(0.0, 0.0)

  /** A width-and-height pair: the window, or a camera frame. */
  datatype Size = Size(width: real, height: real)

  datatype Side = Left | Right
  datatype Joint = Shoulder | Elbow | Wrist | Hip | Knee | Ankle

  /**
   * One field of `PoseType`: every landmark is a joint on one side of the body,
   * so the twelve fields come in left/right pairs.
   */
  datatype Landmark = Landmark(side: Side, joint: Joint)

  /** The record key of a landmark in `PoseType`, e.g. `leftShoulderPosition`. */
  function Name(l: Landmark): string
  {
    match l
    case Landmark(Left, Shoulder) => "leftShoulderPosition"
    case Landmark(Right, Shoulder) => "rightShoulderPosition"
    case Landmark(Left, Elbow) => "leftElbowPosition"
    case Landmark(Right, Elbow) => "rightElbowPosition"
    case Landmark(Left, Wrist) => "leftWristPosition"
    case Landmark(Right, Wrist) => "rightWristPosition"
    case Landmark(Left, Hip) => "leftHipPosition"
    case Landmark(Right, Hip) => "rightHipPosition"
    case Landmark(Left, Knee) => "leftKneePosition"
    case Landmark(Right, Knee) => "rightKneePosition"
    case Landmark(Left, Ankle) => "leftAnklePosition"
    case Landmark(Right, Ankle) => "rightAnklePosition"
  }

  /** The landmark whose record key is `key`, if `key` is one of the twelve. */
  function LandmarkNamed(key: string): Option<Landmark>
  {
    if key == "leftShoulderPosition" then Some(Landmark(Left, Shoulder))
    else if key == "rightShoulderPosition" then Some(Landmark(Right, Shoulder))
    else if key == "leftElbowPosition" then Some(Landmark(Left, Elbow))
    else if key == "rightElbowPosition" then Some(Landmark(Right, Elbow))
    else if key == "leftWristPosition" then Some(Landmark(Left, Wrist))
    else if key == "rightWristPosition" then Some(Landmark(Right, Wrist))
    else if key == "leftHipPosition" then Some(Landmark(Left, Hip))
    else if key == "rightHipPosition" then Some(Landmark(Right, Hip))
    else if key == "leftKneePosition" then Some(Landmark(Left, Knee))
    else if key == "rightKneePosition" then Some(Landmark(Right, Knee))
    else if key == "leftAnklePosition" then Some(Landmark(Left, Ankle))
    else if key == "rightAnklePosition" then Some(Landmark(Right, Ankle))
    else None
  }

  /** Every landmark's key reads back as that landmark, and only the twelve keys do. */
  lemma NameRoundTrip(l: Landmark, key: string)
    ensures LandmarkNamed(Name(l)) == Some(l)
    ensures LandmarkNamed(key).Some? ==> Name(LandmarkNamed(key).value) == key
  {
  }

  /** Distinct landmarks have distinct record keys. */
  lemma NameInjective(a: Landmark, b: Landmark)
    ensures Name(a) == Name(b) ==> a == b
  {
    NameRoundTrip(a, "");
    NameRoundTrip(b, "");
  }

  /** The fields of `PoseType` in declaration order (also the key order of the default pose). */
  const LandmarkOrder: seq<Landmark> := [
    Landmark(Left, Shoulder), Landmark(Right, Shoulder),
    Landmark(Left, Elbow), Landmark(Right, Elbow),
    Landmark(Left, Wrist), Landmark(Right, Wrist),
    Landmark(Left, Hip), Landmark(Right, Hip),
    Landmark(Left, Knee), Landmark(Right, Knee),
    Landmark(Left, Ankle), Landmark(Right, Ankle)
  ]

  /** `PoseType` has exactly twelve fields, each one once, and every landmark is among them. */
  lemma LandmarkOrderComplete(l: Landmark)
    ensures |LandmarkOrder| == 12
    ensures l in LandmarkOrder
    ensures forall i, j :: 0 <= i < j < |LandmarkOrder| ==> LandmarkOrder[i] != LandmarkOrder[j]
  {
    var k := 2 * (match l.joint
      case Shoulder => 0 case Elbow => 1 case Wrist => 2
      case Hip => 3 case Knee => 4 case Ankle => 5) + (if l.side == Left then 0 else 1);
    assert LandmarkOrder[k] == l;
  }

  /** Consecutive fields pair up: field 2k is the left and field 2k+1 the right of one joint. */
  lemma LandmarksPairUp(k: nat)
    requires k < 6
    ensures LandmarkOrder[2 * k].side == Left && LandmarkOrder[2 * k + 1].side == Right
    ensures LandmarkOrder[2 * k].joint == LandmarkOrder[2 * k + 1].joint
  {
  }

  /** A pose: a position per landmark. A `PoseType` value has all twelve. */
  type Pose = map<Landmark, Point>

  ghost predicate IsComplete(p: Pose)
  {
    forall l: Landmark :: l in p
  }

  /** Two complete poses that agree on every landmark are the same pose. */
  lemma CompletePosesEqual(p: Pose, q: Pose)
    requires IsComplete(p) && IsComplete(q)
    requires forall l :: p[l] == q[l]
    ensures p == q
  {
    assert p.Keys == q.Keys;
  }

  /** `defaultPose`: all twelve landmarks at the origin. */
  function DefaultPose(): (p: Pose)
    ensures IsComplete(p)
    ensures forall l :: p[l] == Origin
  {
    var p := map l | l in LandmarkOrder :: Origin;
    forall l: Landmark ensures l in p {
      LandmarkOrderComplete(l);
    }
    p
  }

  /** `PoseDetectionOptions.mode`: `'stream'` or `'single'`, default `'stream'`. */
  datatype Mode = Stream | Single

  /** `PoseDetectionOptions.performanceMode`: `'min'` or `'max'`, default `'min'`. */
  datatype PerformanceMode = Min | Max

  /** `PoseDetectionOptions`: both fields optional. */
  datatype PoseDetectionOptions = PoseDetectionOptions(mode: Option<Mode>, performanceMode: Option<PerformanceMode>)

  function ModeText(m: Mode): string
  {
    match m
    case Stream => "stream"
    case Single => "single"
  }

  function ParseMode(s: string): Option<Mode>
  {
    if s == "stream" then Some(Stream) else if s == "single" then Some(Single) else None
  }

  function PerformanceModeText(m: PerformanceMode): string
  {
    match m
    case Min => "min"
    case Max => "max"
  }

  function ParsePerformanceMode(s: string): Option<PerformanceMode>
  {
    if s == "min" then Some(Min) else if s == "max" then Some(Max) else None
  }

  /** The option strings are exactly the two literals of each union type, and they read back. */
  lemma OptionTextsRoundTrip(m: Mode, pm: PerformanceMode, s: string)
    ensures ParseMode(ModeText(m)) == Some(m)
    ensures ParsePerformanceMode(PerformanceModeText(pm)) == Some(pm)
    ensures ParseMode(s).Some? <==> s == "stream" || s == "single"
    ensures ParsePerformanceMode(s).Some? <==> s == "min" || s == "max"
  {
  }

  /**
   * The mode the detector uses for these options: the plugin interface documents
   * `stream` as the default when the field is left out.
   */
  function EffectiveMode(o: PoseDetectionOptions): (m: Mode)
    ensures o.mode.None? ==> m == Stream
    ensures o.mode.Some? ==> m == o.mode.value
  {
    o.mode.GetOr(Stream)
  }

  /**
   * The performance mode used for these options: the plugin interface documents
   * `min` as the default when the field is left out.
   */
  function EffectivePerformanceMode(o: PoseDetectionOptions): (m: PerformanceMode)
    ensures o.performanceMode.None? ==> m == Min
    ensures o.performanceMode.Some? ==> m == o.performanceMode.value
  {
    o.performanceMode.GetOr(Min)
  }

  /** The options the app sends with every `detectPose` call. */
  const PoseOptions: PoseDetectionOptions := PoseDetectionOptions(Some(Stream), Some(Max))

  /**
   * The app overrides the documented performance default: its detector runs in
   * stream mode at `max` performance, and both fields go out as `'stream'` and `'max'`.
   */
  lemma PoseOptionsInEffect()
    ensures EffectiveMode(PoseOptions) == Stream && EffectivePerformanceMode(PoseOptions) == Max
    ensures ModeText(EffectiveMode(PoseOptions)) == "stream"
    ensures PerformanceModeText(EffectivePerformanceMode(PoseOptions)) == "max"
    ensures EffectivePerformanceMode(PoseOptions) != EffectivePerformanceMode(PoseDetectionOptions(None, None))
  {
  }

  /** `permissionsGranted`: both the camera and the microphone answered `'granted'`. */
  predicate PermissionsGranted(cameraStatus: string, micStatus: string)
  {
    cameraStatus == "granted" && micStatus == "granted"
  }
}
