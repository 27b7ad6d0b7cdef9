/**
 * The values the ADAS orchestrator passes around (boxes, tracked objects, lane geometry, the
 * per-frame results), the event codes it reports, and the small exact computations it performs
 * on them: event classification, the frame counter, the following-distance choice, the ROI box,
 * the lane-width test of the departure stage and the vanish-line update.
 */
module AdasTypes {
  import opened Basics

  /** `ADAS_SUCCESS` and `ADAS_FAILURE`. */
  const ADAS_SUCCESS: int := 1
  const ADAS_FAILURE: int := 0

  /** The frame counter wraps at this modulus. */
  const FRAME_INDEX_MODULUS: int := 65535

  datatype Point = Point(x: int, y: int)

  /** A detection box in model coordinates (or, after rescaling, frame coordinates). */
  datatype Box = Box(x1: int, y1: int, x2: int, y2: int, classId: int, confidence: real, objID: int, boxID: int)

  /** A tracked object: its identity, status, current box and the history of its boxes. */
  datatype TrackedObject = TrackedObject(id: int, status: int, bbox: Box, bboxList: seq<Box>, distanceToCamera: real)

  /** The axis-aligned part of an `ROI`, as `m_roi` uses it. */
  datatype Rect = Rect(x1: int, y1: int, x2: int, y2: int)

  /** The lane-zone part of an `ROI` and of a `LaneInfo`: four corner points of the ego lane. */
  datatype Zone = Zone(pLeftFar: Point, pLeftCarhood: Point, pRightFar: Point, pRightCarhood: Point)

  /** `ADAS_Results`: what the orchestrator reports for a frame. */
  datatype AdasResults = AdasResults(
    pLeftFar: Point, pLeftCarhood: Point, pRightFar: Point, pRightCarhood: Point,
    isDetectLine: bool, yVanish: int, eventType: int, objList: seq<TrackedObject>)

  const ORIGIN: Point := Point(0, 0)
  const EMPTY_RESULTS: AdasResults := AdasResults(ORIGIN, ORIGIN, ORIGIN, ORIGIN, false, 0, 0, [])

  // ---------------------------------------------------------------------------------------------
  // Events

  /** `ADAS_EVENTS`, in declaration order. */
  datatype Event = Normal | LdwFcw | Ldw | Fcw

  /** The enum's numeric values: the declaration order, from 0. */
  function EventCode(e: Event): (code: int)
    ensures 0 <= code <= 3
  {
    match e
    case Normal => 0
    case LdwFcw => 1
    case Ldw => 2
    case Fcw => 3
  }

  function EventFromCode(code: int): (e: Option<Event>)
    ensures e.Some? <==> 0 <= code <= 3
  {
    if code == 0 then Some(Normal)
    else if code == 1 then Some(LdwFcw)
    else if code == 2 then Some(Ldw)
    else if code == 3 then Some(Fcw)
    else None
  }

  /** Every event has its own code, and the code names the event back. */
  lemma EventCodeRoundTrip(e: Event, code: int)
    ensures EventFromCode(EventCode(e)) == Some(e)
    ensures EventFromCode(code).Some? ==> EventCode(EventFromCode(code).value) == code
  {
  }

  /** `getDetectEvents`: the event named by the lane-departure and forward-collision flags. */
  function ClassifyEvent(isLaneDeparture: bool, isForwardCollision: bool): (e: Event)
    ensures (e == Ldw || e == LdwFcw) <==> isLaneDeparture
    ensures (e == Fcw || e == LdwFcw) <==> isForwardCollision
  {
    if isLaneDeparture && isForwardCollision then LdwFcw
    else if isLaneDeparture then Ldw
    else if isForwardCollision then Fcw
    else Normal
  }

  /** The `LDW` value of the log's `ADAS` entry: 1 for the LDW and LDW_FCW codes, 0 otherwise. */
  function LdwFlag(eventType: int): (flag: int)
    ensures flag == 1 <==> eventType == EventCode(Ldw) || eventType == EventCode(LdwFcw)
    ensures flag == 0 || flag == 1
  {
    if eventType == 2 then 1 else if eventType == 1 then 1 else 0
  }

  /** The `FCW` value of the log's `ADAS` entry: 1 for the FCW and LDW_FCW codes, 0 otherwise. */
  function FcwFlag(eventType: int): (flag: int)
    ensures flag == 1 <==> eventType == EventCode(Fcw) || eventType == EventCode(LdwFcw)
    ensures flag == 0 || flag == 1
  {
    if eventType == 3 then 1 else if eventType == 1 then 1 else 0
  }

  /** Logging the event code loses nothing: the two flags give back the two warnings. */
  lemma FlagsRecoverWarnings(isLaneDeparture: bool, isForwardCollision: bool)
    ensures LdwFlag(EventCode(ClassifyEvent(isLaneDeparture, isForwardCollision))) == (if isLaneDeparture then 1 else 0)
    ensures FcwFlag(EventCode(ClassifyEvent(isLaneDeparture, isForwardCollision))) == (if isForwardCollision then 1 else 0)
  {
  }

  // ---------------------------------------------------------------------------------------------
  // Labels

  /**
   * The label both log builders give a class id: class 0 is `HUMAN`, 1 is `RIDER`, 2 is `VEHICLE`,
   * and every other id gets the builder's own fallback.
   */
  function ClassLabel(classId: int, fallback: string): (name: string)
    ensures classId == 0 ==> name == "HUMAN"
    ensures classId == 1 ==> name == "RIDER"
    ensures classId == 2 ==> name == "VEHICLE"
    ensures !(0 <= classId <= 2) ==> name == fallback
  {
    if classId == 0 then "HUMAN"
    else if classId == 1 then "RIDER"
    else if classId == 2 then "VEHICLE"
    else fallback
  }

  /** The detection-log label of a class id: `UNKNOWN` for any id outside 0..2. */
  function DetectionLabel(classId: int): (name: string)
    ensures name == "UNKNOWN" <==> !(0 <= classId <= 2)
  {
    ClassLabel(classId, "UNKNOWN")
  }

  /** The tracking-log label of a class id: the empty string for any id outside 0..2. */
  function TrackingLabel(classId: int): (name: string)
    ensures name == "" <==> !(0 <= classId <= 2)
  {
    ClassLabel(classId, "")
  }

  /**
   * The two label maps name the three known classes alike (`HUMAN`, `RIDER`, `VEHICLE`) and
   * differ on every other id.
   */
  lemma LabelMapsDiffer(classId: int)
    ensures classId == 0 ==> DetectionLabel(classId) == TrackingLabel(classId) == "HUMAN"
    ensures classId == 1 ==> DetectionLabel(classId) == TrackingLabel(classId) == "RIDER"
    ensures classId == 2 ==> DetectionLabel(classId) == TrackingLabel(classId) == "VEHICLE"
    ensures !(0 <= classId <= 2) ==> DetectionLabel(classId) == "UNKNOWN" && TrackingLabel(classId) == ""
  {
  }

  // ---------------------------------------------------------------------------------------------
  // Frame counter

  /** `_updateFrameIndex`: `(m_frameIdx % 65535) + 1` with C++'s truncating remainder. */
  function NextFrameIndex(frameIdx: int): (next: int)
    ensures frameIdx >= 0 ==> 1 <= next <= FRAME_INDEX_MODULUS
    ensures 0 <= frameIdx < FRAME_INDEX_MODULUS ==> next == frameIdx + 1
    ensures frameIdx == FRAME_INDEX_MODULUS ==> next == 1
  {
    CRem(frameIdx, FRAME_INDEX_MODULUS) + 1
  }

  /** The counter after `n` updates from the initial 0. */
  function FrameIndexAfter(n: nat): int
  {
    if n == 0 then 0 else NextFrameIndex(FrameIndexAfter(n - 1))
  }

  /** From 0 the counter runs 1, 2, ..., 65535, 1, 2, ...: never 0 again, period 65535. */
  lemma {:induction false} FrameIndexCycles(n: nat)
    requires n >= 1
    ensures FrameIndexAfter(n) == (n - 1) % FRAME_INDEX_MODULUS + 1
  {
    if n > 1 {
      FrameIndexCycles(n - 1);
      var prev := (n - 2) % FRAME_INDEX_MODULUS;
      if prev < FRAME_INDEX_MODULUS - 1 {
        assert (n - 1) % FRAME_INDEX_MODULUS == prev + 1;
      } else {
        assert (n - 1) % FRAME_INDEX_MODULUS == 0;
      }
    }
  }

  // ---------------------------------------------------------------------------------------------
  // Following distance

  /**
   * The index whose distance `getFollowingDistance` reports: the first object of strictly maximal
   * positive area, or none when no object has a positive area.
   */
  function FollowingIndex(objs: seq<TrackedObject>, area: Box -> int): (k: Option<nat>)
    decreases |objs|
    ensures k.None? <==> forall i :: 0 <= i < |objs| ==> area(objs[i].bbox) <= 0
    ensures k.Some? ==> k.value < |objs| && area(objs[k.value].bbox) > 0
    ensures k.Some? ==> forall i :: 0 <= i < |objs| ==> area(objs[i].bbox) <= area(objs[k.value].bbox)
    ensures k.Some? ==> forall i :: 0 <= i < k.value ==> area(objs[i].bbox) < area(objs[k.value].bbox)
  {
    if |objs| == 0 then None
    else
      var prev := FollowingIndex(objs[..|objs| - 1], area);
      var best := if prev.None? then 0 else area(objs[prev.value].bbox);
      if area(objs[|objs| - 1].bbox) > best then Some(|objs| - 1) else prev
  }

  /** The distance of that object, or the sentinel -1. */
  function FollowingDistance(objs: seq<TrackedObject>, area: Box -> int): real
  {
    match FollowingIndex(objs, area)
    case None => -1.0
    case Some(k) => objs[k].distanceToCamera
  }

  // ---------------------------------------------------------------------------------------------
  // Region of interest

  /** `_initROI`: a box centred on the model frame, from the configured model size. */
  function CenteredRoi(modelWidth: int, modelHeight: int): (r: Rect)
    ensures modelWidth >= 0 ==> 0 <= r.x1 <= r.x2 <= modelWidth && r.x1 + r.x2 == 2 * (modelWidth / 2)
    ensures modelHeight >= 0 ==> 0 <= r.y1 <= r.y2 <= modelHeight && r.y1 + r.y2 == 2 * (modelHeight / 2)
  {
    var xCenter := Trunc(modelWidth as real * 0.5);
    var yCenter := Trunc(modelHeight as real * 0.5);
    var newWidth := Trunc(modelWidth as real * 0.15);
    var dx := Trunc(newWidth as real * 0.6);
    var dy := Trunc(modelHeight as real * 0.2);
    Rect(xCenter - dx, yCenter - dy, xCenter + dx, yCenter + dy)
  }

  // ---------------------------------------------------------------------------------------------
  // Lane departure and vanish line

  /**
   * `(float)maxLaneWidth / (float)modelWidth > 0.55`, the quotient taken exactly; for a zero width
   * the IEEE quotient is +inf, -inf or NaN, so the test holds exactly when the lane width is positive.
   */
  function LaneTooWide(maxLaneWidth: int, modelWidth: int): bool
  {
    if modelWidth != 0 then maxLaneWidth as real / modelWidth as real > 0.55 else maxLaneWidth > 0
  }

  /** The test without the division: more than 11/20 of the width, on the side of the width's sign. */
  lemma LaneTooWideInIntegers(maxLaneWidth: int, modelWidth: int)
    ensures modelWidth > 0 ==> (LaneTooWide(maxLaneWidth, modelWidth) <==> 20 * maxLaneWidth > 11 * modelWidth)
    ensures modelWidth < 0 ==> (LaneTooWide(maxLaneWidth, modelWidth) <==> 20 * maxLaneWidth < 11 * modelWidth)
    ensures modelWidth == 0 ==> (LaneTooWide(maxLaneWidth, modelWidth) <==> maxLaneWidth > 0)
  {
    var x, m := maxLaneWidth as real, modelWidth as real;
    assert 20.0 * (x - 0.55 * m) == (20 * maxLaneWidth - 11 * modelWidth) as real;
    if modelWidth > 0 {
      QuotientAbove(x, m, 0.55);
    } else if modelWidth < 0 {
      QuotientBelow(x, m, 0.55);
    }
  }

  /** The vanish line after a fitter report: rescaled to frame height when non-zero, else kept. */
  function UpdatedVanishLine(yVanish: int, fitterY: int, focalRescaleRatio: real): (y: int)
    ensures fitterY == 0 ==> y == yVanish
    ensures fitterY != 0 ==> fitterY as real * focalRescaleRatio - 0.5 <= y as real <= fitterY as real * focalRescaleRatio + 0.5
    ensures fitterY != 0 && y as real == fitterY as real * focalRescaleRatio + 0.5 ==> fitterY as real * focalRescaleRatio > 0.0
    ensures fitterY != 0 && y as real == fitterY as real * focalRescaleRatio - 0.5 ==> fitterY as real * focalRescaleRatio < 0.0
  {
    if fitterY != 0 then RoundHalfAway(fitterY as real * focalRescaleRatio) else yVanish
  }
}
