/**
 * The live pose overlay: each camera frame's detector output is mapped landmark by
 * landmark into window coordinates (axes swapped, rescaled, then mirrored
 * horizontally), the result replaces the overlay's pose, and the overlay draws
 * twelve skeleton segments between landmarks.
 */
module PoseDraw {
  import opened Wrappers
  import opened Types

  /**
   * The raw result of the pose plugin: an object keyed by landmark name. Keys the
   * detector did not report are simply missing; keys outside `PoseType` may occur.
   */
  type DetectorResult = map<string, Point>

  /** `flipHorizontal`: mirror an x coordinate across the window. */
  function FlipHorizontal(x: real, window: Size): real
  {
    window.width - x
  }

  /**
   * Where the frame processor puts one reported landmark: the detector's `y`,
   * scaled by `window.height / frame.width`, becomes the (mirrored) screen `x`;
   * the detector's `x`, scaled by `window.width / frame.height`, becomes the screen `y`.
   */
  function DisplayPoint(p: Point, window: Size, frame: Size): Point
    requires frame.width > 0.0 && frame.height > 0.0
  {
    var yFactor := window.width / frame.height;
    var xFactor := window.height / frame.width;
    Point(FlipHorizontal(p.y * xFactor, window), p.x * yFactor)
  }

  /** The detector coordinates a window point came from (undoes `DisplayPoint`). */
  function DetectorPoint(q: Point, window: Size, frame: Size): Point
    requires frame.width > 0.0 && frame.height > 0.0
    requires window.width > 0.0 && window.height > 0.0
  {
    Point(q.y / (window.width / frame.height), (window.width - q.x) / (window.height / frame.width))
  }

  /** For a non-empty window the mapping loses nothing: it is undone by `DetectorPoint`, both ways. */
  lemma DisplayPointRoundTrip(p: Point, q: Point, window: Size, frame: Size)
    requires frame.width > 0.0 && frame.height > 0.0
    requires window.width > 0.0 && window.height > 0.0
    ensures DetectorPoint(DisplayPoint(p, window, frame), window, frame) == p
    ensures DisplayPoint(DetectorPoint(q, window, frame), window, frame) == q
  {
    var yFactor := window.width / frame.height;
    var xFactor := window.height / frame.width;
    assert yFactor > 0.0 && xFactor > 0.0;
    assert (p.x * yFactor) / yFactor == p.x;
    assert (window.width - (window.width - p.y * xFactor)) / xFactor == p.y;
    assert (q.y / yFactor) * yFactor == q.y;
    assert ((window.width - q.x) / xFactor) * xFactor == window.width - q.x;
  }

  /** The entry of the handed-over pose for landmark `l`. */
  function ExpectedPoint(raw: DetectorResult, window: Size, frame: Size, l: Landmark): Point
    requires frame.width > 0.0 && frame.height > 0.0
  {
    if Name(l) in raw then DisplayPoint(raw[Name(l)], window, frame) else Origin
  }

  /**
   * The pose handed to the UI for one frame: every `PoseType` key, the transformed
   * point where the detector reported that key, the origin where it did not.
   */
  function ExpectedPose(raw: DetectorResult, window: Size, frame: Size): (pose: Pose)
    requires frame.width > 0.0 && frame.height > 0.0
    ensures IsComplete(pose)
    ensures forall l :: pose[l] == ExpectedPoint(raw, window, frame, l)
  {
    var pose := map l | l in LandmarkOrder :: ExpectedPoint(raw, window, frame, l);
    forall l: Landmark ensures l in pose {
      LandmarkOrderComplete(l);
    }
    pose
  }

  /**
   * The frame processor's transform loop: start from a copy of `defaultPose` and,
   * for each of its keys that the detector reported, overwrite the entry.
   */
  method TransformPose(poseObject: DetectorResult, window: Size, frame: Size) returns (poseCopy: Pose)
    requires frame.width > 0.0 && frame.height > 0.0
    ensures poseCopy == ExpectedPose(poseObject, window, frame)
  {
    var yFactor := window.width / frame.height;
    var xFactor := window.height / frame.width;
    poseCopy := DefaultPose();
    var keys := LandmarkOrder;
    for i := 0 to |keys|
      invariant IsComplete(poseCopy)
      invariant forall l :: l in keys[..i] ==> poseCopy[l] == ExpectedPoint(poseObject, window, frame, l)
      invariant forall l :: l !in keys[..i] ==> poseCopy[l] == Origin
    {
      var key := keys[i];
      assert keys[..i + 1] == keys[..i] + [key];
      if Name(key) in poseObject {
        var point := poseObject[Name(key)];
        poseCopy := poseCopy[key := Point(FlipHorizontal(point.y * xFactor, window), point.x * yFactor)];
        assert poseCopy[key] == DisplayPoint(point, window, frame);
      }
      assert poseCopy[key] == ExpectedPoint(poseObject, window, frame, key);
    }
    assert keys[..|keys|] == keys;
    var expected := ExpectedPose(poseObject, window, frame);
    forall l: Landmark ensures poseCopy[l] == expected[l] {
      LandmarkOrderComplete(l);
    }
    CompletePosesEqual(poseCopy, expected);
  }

  /** A reported landmark lands at `width - y * (height / frame.width)`, `x * (width / frame.height)`. */
  lemma PresentLandmark(raw: DetectorResult, window: Size, frame: Size, l: Landmark)
    requires frame.width > 0.0 && frame.height > 0.0
    requires Name(l) in raw
    ensures var p := raw[Name(l)];
            ExpectedPose(raw, window, frame)[l] ==
              Point(window.width - p.y * (window.height / frame.width), p.x * (window.width / frame.height))
  {
    LandmarkOrderComplete(l);
  }

  /**
   * A landmark the detector left out stays at the origin: it is not mirrored (the
   * mirror of the origin would sit at the window's right edge).
   */
  lemma AbsentLandmark(raw: DetectorResult, window: Size, frame: Size, l: Landmark)
    requires frame.width > 0.0 && frame.height > 0.0
    requires Name(l) !in raw
    ensures ExpectedPose(raw, window, frame)[l] == Origin
    ensures window.width != 0.0 ==> ExpectedPose(raw, window, frame)[l].x != FlipHorizontal(Origin.x, window)
  {
    LandmarkOrderComplete(l);
  }

  /** A key that is not a `PoseType` field has no effect on the pose, whatever its value. */
  lemma UnknownKeyIgnored(raw: DetectorResult, key: string, v: Point, window: Size, frame: Size)
    requires frame.width > 0.0 && frame.height > 0.0
    requires LandmarkNamed(key).None?
    ensures ExpectedPose(raw[key := v], window, frame) == ExpectedPose(raw, window, frame)
  {
    var a := ExpectedPose(raw[key := v], window, frame);
    var b := ExpectedPose(raw, window, frame);
    forall l | l in a ensures a[l] == b[l] {
      NameRoundTrip(l, key);
      assert Name(l) != key;
    }
  }

  /**
   * For a 1080x1920 frame in a 390x844 window, a
   * landmark reported at (960, 540) lands at (-32, 195): the height ratio scales the
   * detector's y and the width ratio its x, and the result is mirrored.
   */
  lemma ReferenceFrameExample()
    ensures DisplayPoint(Point(960.0, 540.0), Size(390.0, 844.0), Size(1080.0, 1920.0)) == Point(-32.0, 195.0)
  {
  }

  /** One `<Line>` of the overlay. */
  datatype Line = Line(x1: real, y1: real, x2: real, y2: real)

  /** The segments the overlay draws, in drawing order: left arm and leg, right arm and leg, then the two cross lines. */
  const Skeleton: seq<(Landmark, Landmark)> := [
    (Landmark(Left, Wrist), Landmark(Left, Elbow)),
    (Landmark(Left, Elbow), Landmark(Left, Shoulder)),
    (Landmark(Left, Shoulder), Landmark(Left, Hip)),
    (Landmark(Left, Hip), Landmark(Left, Knee)),
    (Landmark(Left, Knee), Landmark(Left, Ankle)),
    (Landmark(Right, Wrist), Landmark(Right, Elbow)),
    (Landmark(Right, Elbow), Landmark(Right, Shoulder)),
    (Landmark(Right, Shoulder), Landmark(Right, Hip)),
    (Landmark(Right, Hip), Landmark(Right, Knee)),
    (Landmark(Right, Knee), Landmark(Right, Ankle)),
    (Landmark(Left, Shoulder), Landmark(Right, Shoulder)),
    (Landmark(Left, Hip), Landmark(Right, Hip))
  ]

  /** The wrist-to-ankle chain each side draws. */
  const Chain: seq<Joint> := [Wrist, Elbow, Shoulder, Hip, Knee, Ankle]

  /**
   * The skeleton is twelve segments: on each side the five links of the chain,
   * then shoulder to shoulder and hip to hip; every landmark is an endpoint.
   */
  lemma SkeletonShape(l: Landmark)
    ensures |Skeleton| == 12
    ensures forall k {:trigger Skeleton[k]} :: 0 <= k < 5 ==>
      Skeleton[k] == (Landmark(Left, Chain[k]), Landmark(Left, Chain[k + 1])) &&
      Skeleton[k + 5] == (Landmark(Right, Chain[k]), Landmark(Right, Chain[k + 1]))
    ensures Skeleton[10] == (Landmark(Left, Shoulder), Landmark(Right, Shoulder))
    ensures Skeleton[11] == (Landmark(Left, Hip), Landmark(Right, Hip))
    ensures exists i :: 0 <= i < |Skeleton| && (Skeleton[i].0 == l || Skeleton[i].1 == l)
  {
    var k := match l.joint
      case Wrist => 0 case Elbow => 1 case Shoulder => 2 case Hip => 3 case Knee => 4 case Ankle => 4;
    var i := if l.side == Left then k else k + 5;
    assert Skeleton[i].0 == l || Skeleton[i].1 == l;
  }

  /** The overlay lines for a pose: one per skeleton segment, from its first landmark to its second. */
  function DrawSkeleton(pose: Pose): (lines: seq<Line>)
    requires IsComplete(pose)
    ensures |lines| == 12
    ensures forall i :: 0 <= i < 12 ==>
      var (a, b) := Skeleton[i];
      lines[i] == Line(pose[a].x, pose[a].y, pose[b].x, pose[b].y)
  {
    seq(|Skeleton|, i requires 0 <= i < |Skeleton| =>
      Line(pose[Skeleton[i].0].x, pose[Skeleton[i].0].y, pose[Skeleton[i].1].x, pose[Skeleton[i].1].y))
  }

  /**
   * The limbs are drawn as connected chains: on each side, each line of the arm and
   * leg starts where the previous one ends, and the two cross lines join the ends of
   * the upper arms (the shoulders) and of the torso sides (the hips).
   */
  lemma DrawSkeletonConnected(pose: Pose)
    requires IsComplete(pose)
    ensures var lines := DrawSkeleton(pose);
      (forall k {:trigger lines[k]} :: (0 <= k < 4 || 5 <= k < 9) ==>
         lines[k].x2 == lines[k + 1].x1 && lines[k].y2 == lines[k + 1].y1) &&
      lines[10] == Line(lines[1].x2, lines[1].y2, lines[6].x2, lines[6].y2) &&
      lines[11] == Line(lines[2].x2, lines[2].y2, lines[7].x2, lines[7].y2)
  {
    var lines := DrawSkeleton(pose);
    forall k | 0 <= k < 4 || 5 <= k < 9
      ensures lines[k].x2 == lines[k + 1].x1 && lines[k].y2 == lines[k + 1].y1
    {
      assert Skeleton[k].1 == Skeleton[k + 1].0;
    }
  }

  /** The `PoseDraw` screen's state: its `pose` slot, which the overlay draws. */
  class PoseOverlay {
    var pose: Pose

    ghost predicate Valid()
      reads this
    {
      IsComplete(pose)
    }

    /** `useState<PoseType>(defaultPose)` */
    constructor ()
      ensures Valid() && pose == DefaultPose()
    {
      pose := DefaultPose();
    }

    /** `handlePose`: a delivered pose replaces the slot wholesale, so the last delivery wins. */
    method HandlePose(result: Pose)
      requires IsComplete(result)
      modifies this
      ensures Valid() && pose == result
    {
      pose := result;
    }

    /**
     * One run of the frame processor followed by its delivery: when the plugin call
     * throws (plugin not linked) the frame is lost and the pose stays; otherwise the
     * transformed pose replaces it.
     */
    method OnFrame(detection: Result<DetectorResult>, window: Size, frame: Size)
      requires Valid()
      requires frame.width > 0.0 && frame.height > 0.0
      modifies this
      ensures Valid()
      ensures detection.Failure? ==> pose == old(pose)
      ensures detection.Success? ==> pose == ExpectedPose(detection.value, window, frame)
    {
      if detection.Failure? {
        return;
      }
      var poseCopy := TransformPose(detection.value, window, frame);
      HandlePose(poseCopy);
    }

    /**
     * What the screen shows over the camera: nothing but the permission notice until
     * a back camera exists and both permissions are granted, then the twelve lines.
     */
    function Overlay(hasDevice: bool, cameraStatus: string, micStatus: string): (lines: seq<Line>)
      requires Valid()
      reads this
      ensures !hasDevice || !PermissionsGranted(cameraStatus, micStatus) ==> lines == []
      ensures hasDevice && PermissionsGranted(cameraStatus, micStatus) ==> lines == DrawSkeleton(pose)
    {
      if !hasDevice || !PermissionsGranted(cameraStatus, micStatus) then [] else DrawSkeleton(pose)
    }
  }
}
