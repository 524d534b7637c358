/**
 * The live object overlay: each frame's detected boxes are rescaled field by
 * field into window coordinates and the new list replaces the screen's
 * `objects` slot.
 */
module SessionPlayer {
  import opened Wrappers
  import opened Types

  /**
   * One detected object (`ObjectType`): a labelled box with a confidence score.
   * Only `x` and `y` are touched by the rescale; the other fields ride along.
   */
  datatype ObjectBox = ObjectBox(className: string, confidence: real, x: real, y: real, width: real, height: real)

  /** `{...obj, x: obj.x * xFactor, y: obj.y * yFactor}` for one box. */
  function RescaleBox(obj: ObjectBox, window: Size, frame: Size): ObjectBox
    requires frame.width > 0.0 && frame.height > 0.0
  {
    var yFactor := window.width / frame.height;
    var xFactor := window.height / frame.width;
    obj.(x := obj.x * xFactor, y := obj.y * yFactor)
  }

  /**
   * `results.map(...)`: a new list, the same length and order as the detector's,
   * where box `i` has its `x` scaled by `height / frame.width` and its `y` by
   * `width / frame.height` (no mirroring), and every other field, `width` and
   * `height` included, is copied unchanged.
   */
  function RescaleObjects(results: seq<ObjectBox>, window: Size, frame: Size): (r: seq<ObjectBox>)
    requires frame.width > 0.0 && frame.height > 0.0
    ensures |r| == |results|
    ensures forall i :: 0 <= i < |r| ==>
      r[i].x == results[i].x * (window.height / frame.width) &&
      r[i].y == results[i].y * (window.width / frame.height)
    ensures forall i :: 0 <= i < |r| ==>
      r[i].className == results[i].className && r[i].confidence == results[i].confidence &&
      r[i].width == results[i].width && r[i].height == results[i].height
  {
    if results == [] then [] else [RescaleBox(results[0], window, frame)] + RescaleObjects(results[1..], window, frame)
  }

  /** The box a rescaled box came from (divides the two factors back out). */
  function UnscaleBox(obj: ObjectBox, window: Size, frame: Size): ObjectBox
    requires frame.width > 0.0 && frame.height > 0.0
    requires window.width > 0.0 && window.height > 0.0
  {
    obj.(x := obj.x / (window.height / frame.width), y := obj.y / (window.width / frame.height))
  }

  /** For a non-empty window, unscaling each box of the rescaled list gives back the detector's list. */
  lemma {:induction false} RescaleRoundTrip(results: seq<ObjectBox>, window: Size, frame: Size)
    requires frame.width > 0.0 && frame.height > 0.0
    requires window.width > 0.0 && window.height > 0.0
    ensures var r := RescaleObjects(results, window, frame);
            forall i :: 0 <= i < |r| ==> UnscaleBox(r[i], window, frame) == results[i]
  {
    var r := RescaleObjects(results, window, frame);
    var xFactor := window.height / frame.width;
    var yFactor := window.width / frame.height;
    assert xFactor > 0.0 && yFactor > 0.0;
    forall i | 0 <= i < |r| ensures UnscaleBox(r[i], window, frame) == results[i] {
      assert (results[i].x * xFactor) / xFactor == results[i].x;
      assert (results[i].y * yFactor) / yFactor == results[i].y;
    }
  }

  /** Rescaling a list is rescaling its parts: splitting a frame's list and rescaling each half agrees. */
  lemma {:induction false} RescaleAppend(a: seq<ObjectBox>, b: seq<ObjectBox>, window: Size, frame: Size)
    requires frame.width > 0.0 && frame.height > 0.0
    ensures RescaleObjects(a + b, window, frame) == RescaleObjects(a, window, frame) + RescaleObjects(b, window, frame)
  {
    if a == [] {
      assert a + b == b;
    } else {
      assert (a + b)[1..] == a[1..] + b;
      RescaleAppend(a[1..], b, window, frame);
    }
  }

  /** The `SessionPlayer` screen's state: the `objects` slot. */
  class ObjectOverlay {
    var objects: seq<ObjectBox>

    /** `useState<ObjectType[]>([])` */
    constructor ()
      ensures objects == []
    {
      objects := [];
    }

    /** `handlePositions`: the delivered list replaces the slot wholesale. */
    method HandlePositions(results: seq<ObjectBox>)
      modifies this
      ensures objects == results
    {
      objects := results;
    }

    /**
     * One run of the frame processor and its delivery: a throwing plugin call loses
     * the frame; otherwise the rescaled copy replaces the slot. The detector's own
     * list is a value and is left as it was.
     */
    method OnFrame(detection: Result<seq<ObjectBox>>, window: Size, frame: Size)
      requires frame.width > 0.0 && frame.height > 0.0
      modifies this
      ensures detection.Failure? ==> objects == old(objects)
      ensures detection.Success? ==> objects == RescaleObjects(detection.value, window, frame)
    {
      if detection.Failure? {
        return;
      }
      var resultsCopy := RescaleObjects(detection.value, window, frame);
      HandlePositions(resultsCopy);
    }
  }
}
