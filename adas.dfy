/**
 * The per-frame orchestrator `ADAS` on the QCS6490 path: its state, the five processing stages,
 * the frame counter, the result snapshot and the per-frame `run` that ties them together and
 * builds the frame log.
 *
 * The collaborators the orchestrator calls (the YOLO prediction and result buffers, the lane-line
 * fitter, FCW, LDW, the three object trackers) are not part of this model: what they answer for
 * one frame is a `FrameEnv`, with functions where the answer depends on what the orchestrator
 * passes in.
 */
module AdasPipeline {
  import opened Basics
  import opened AdasTypes
  import opened JsonDoc
  import opened JsonLog

  /** The per-class detection lists (`m_humanBBoxList` ... `m_stopSignBBoxList`). */
  datatype ClassBoxes = ClassBoxes(humans: seq<Box>, riders: seq<Box>, vehicles: seq<Box>, roadSigns: seq<Box>, stopSigns: seq<Box>)

  /** The lists kept after FCW's class filters (`m_f_humanBBoxList` ... `m_f_vehicleBBoxList`). */
  datatype FilteredBoxes = FilteredBoxes(humans: seq<Box>, riders: seq<Box>, vehicles: seq<Box>)

  /** The six lane-marking box lists the lane fitter consumes (`m_vlaBBoxList` ... `m_dcaBBoxList`). */
  datatype LaneBoxes = LaneBoxes(vla: seq<Box>, vpa: seq<Box>, dla: seq<Box>, dma: seq<Box>, dua: seq<Box>, dca: seq<Box>)

  /** The trackers' object lists (`m_humanObjList`, `m_riderObjList`, `m_vehicleObjList`). */
  datatype TrackLists = TrackLists(humans: seq<TrackedObject>, riders: seq<TrackedObject>, vehicles: seq<TrackedObject>)

  /** The post-processor's result for one frame (`m_procResult`). */
  datatype ProcResult = ProcResult(objects: ClassBoxes, lanes: LaneBoxes)

  /** What the lane-line fitter reports: the lane, `m_laneLineInfo.maxLaneWidth`, `isDetectLine()`, `getVanishY()`. */
  datatype LaneFit = LaneFit(laneInfo: Zone, maxLaneWidth: int, isDetectLine: bool, vanishY: int)

  /** What the collaborators answer during one call of `run`. */
  datatype FrameEnv = FrameEnv(
    predictionCount: int,                                        // getLastestPrediction
    resultCount: int,                                            // getLastestResult
    proc: ProcResult,                                            // the result it fills in
    laneFitter: LaneBoxes -> LaneFit,                            // LaneLineDetection::find and friends
    carAheadWithin10: seq<Box> -> bool,                          // FCW::isCarAheadCloserThanMeters(_, 10)
    humanFilter: seq<Box> -> seq<Box>,                           // FCW::humanBoxFilter
    riderFilter: seq<Box> -> seq<Box>,                           // FCW::riderBoxFilter
    vehicleFilter: seq<Box> -> seq<Box>,                         // FCW::vehicleBoxFilter
    humanTracker: (seq<Box>, int, Rect) -> seq<TrackedObject>,   // run, then getObjectList
    riderTracker: (seq<Box>, int, Rect) -> seq<TrackedObject>,
    vehicleTracker: (seq<Box>, int, Rect) -> seq<TrackedObject>,
    warnCounter: int,                                            // LDW::getWarnCounter
    fcw: (seq<TrackedObject>, int) -> bool,                      // FCW::run
    rescaledVehicleZone: Zone)                                   // rescaleLine of FCW's vehicle zone

  /** The configuration values the orchestrator reads. */
  datatype Config = Config(
    modelWidth: int, modelHeight: int, frameWidth: int, frameHeight: int,
    procFrameStep: int, yVanish: int, toggles: Toggles)

  /** The fields `_init` sets once from configuration and no modelled method changes afterwards. */
  datatype Geometry = Geometry(
    frameStep: int, videoWidth: int, videoHeight: int, modelWidth: int, modelHeight: int,
    focalRescaleRatio: real, roi: Rect)

  /** What `_init` derives from the configuration; `_initROI` reads the configured model size. */
  function GeometryOf(config: Config): (g: Geometry)
    requires config.modelHeight != 0
    ensures g.roi == CenteredRoi(config.modelWidth, config.modelHeight)
    ensures g.focalRescaleRatio * config.modelHeight as real == config.frameHeight as real
    ensures g.frameStep == config.procFrameStep && g.modelWidth == config.modelWidth
  {
    Geometry(config.procFrameStep, config.frameWidth, config.frameHeight, config.modelWidth, config.modelHeight,
             config.frameHeight as real / config.modelHeight as real,
             CenteredRoi(config.modelWidth, config.modelHeight))
  }

  /** The fields of `ADAS` that `run` changes from frame to frame. */
  datatype AdasState = AdasState(
    frameIdx: int,
    boxes: ClassBoxes, filtered: FilteredBoxes, laneBoxes: LaneBoxes,
    currLaneInfo: Zone, maxLaneWidth: int, isDetectLine: bool, yVanish: int,
    ldwWarnCounter: int, isLaneDeparture: bool, isForwardCollision: bool,
    objLists: TrackLists, trackedObjs: seq<TrackedObject>,
    rescaleVehicleZone: Zone, result: AdasResults)

  const ZERO_ZONE: Zone := Zone(ORIGIN, ORIGIN, ORIGIN, ORIGIN)

  /** The changing fields as declared, and the vanish line `_init` takes from configuration. */
  function InitialState(config: Config): AdasState
  {
    AdasState(
      0,
      ClassBoxes([], [], [], [], []), FilteredBoxes([], [], []), LaneBoxes([], [], [], [], [], []),
      ZERO_ZONE, 0, false, config.yVanish,
      0, false, false,
      TrackLists([], [], []), [],
      ZERO_ZONE, EMPTY_RESULTS)
  }

  // ---------------------------------------------------------------------------------------------
  // The stages, as functions of the state before them

  /** `_laneLineDetection`. */
  function LaneLineStage(g: Geometry, s: AdasState, env: FrameEnv): AdasState
  {
    var fit := env.laneFitter(env.proc.lanes);
    s.(laneBoxes := env.proc.lanes, currLaneInfo := fit.laneInfo, maxLaneWidth := fit.maxLaneWidth,
       isDetectLine := fit.isDetectLine,
       yVanish := UpdatedVanishLine(s.yVanish, fit.vanishY, g.focalRescaleRatio))
  }

  /** `_objectDetection`. */
  function DetectionStage(s: AdasState, env: FrameEnv): AdasState
  {
    var p := env.proc.objects;
    s.(boxes := p,
       isDetectLine := s.isDetectLine && !env.carAheadWithin10(p.vehicles),
       filtered := FilteredBoxes(env.humanFilter(p.humans), env.riderFilter(p.riders), env.vehicleFilter(p.vehicles)))
  }

  /** `_objectTracking`. */
  function TrackingStage(g: Geometry, s: AdasState, env: FrameEnv): AdasState
  {
    var f := s.filtered;
    var lists := TrackLists(
      env.humanTracker(f.humans, s.yVanish, g.roi),
      env.riderTracker(f.riders, s.yVanish, g.roi),
      env.vehicleTracker(f.vehicles, s.yVanish, g.roi));
    s.(objLists := lists, trackedObjs := lists.humans + lists.riders + lists.vehicles)
  }

  /** `_laneDepartureDetection`: with no lane detected, the warning may only be cleared. */
  function DepartureStage(g: Geometry, s: AdasState, env: FrameEnv): AdasState
  {
    if s.isDetectLine then s
    else
      var cleared := LaneTooWide(s.maxLaneWidth, g.modelWidth) || env.warnCounter == 0;
      s.(ldwWarnCounter := env.warnCounter, isLaneDeparture := if cleared then false else s.isLaneDeparture)
  }

  /** `_forwardCollisionDetection`. */
  function CollisionStage(s: AdasState, env: FrameEnv): AdasState
  {
    s.(isForwardCollision := env.fcw(s.trackedObjs, s.yVanish))
  }

  /** The five stages in the order `run` calls them. */
  function ProcessStages(g: Geometry, s: AdasState, env: FrameEnv): AdasState
  {
    CollisionStage(DepartureStage(g, TrackingStage(g, DetectionStage(LaneLineStage(g, s, env), env), env), env), env)
  }

  /** `getResults`: the corners only when both far points lie off row 0; the rest always. */
  function ResultsStage(s: AdasState, zone: Zone): AdasState
  {
    var r := s.result;
    var corners := zone.pLeftFar.y != 0 && zone.pRightFar.y != 0;
    s.(rescaleVehicleZone := zone,
       result := AdasResults(
         if corners then zone.pLeftFar else r.pLeftFar,
         if corners then zone.pLeftCarhood else r.pLeftCarhood,
         if corners then zone.pRightFar else r.pRightFar,
         if corners then zone.pRightCarhood else r.pRightCarhood,
         s.isDetectLine, s.yVanish,
         EventCode(ClassifyEvent(s.isLaneDeparture, s.isForwardCollision)),
         s.trackedObjs))
  }

  // ---------------------------------------------------------------------------------------------
  // One call of `run`

  /** The state after `run`, its return value, and whether it built a log document. */
  datatype Outcome = Outcome(state: AdasState, ret: bool, logged: bool)

  /** The entry gate: the frame index is a multiple of the step and a prediction is waiting. */
  predicate Processes(g: Geometry, s: AdasState, env: FrameEnv)
    requires g.frameStep != 0
  {
    CRem(s.frameIdx, g.frameStep) == 0 && env.predictionCount > 0
  }

  /**
   * What `run` does to the state: an empty image or an empty result buffer returns false before
   * anything changes; otherwise the stages run if the gate opens, the index advances and the
   * results are refreshed.
   */
  function RunStep(g: Geometry, s: AdasState, frameEmpty: bool, env: FrameEnv): (o: Outcome)
    requires g.frameStep != 0
    ensures !o.ret <==> frameEmpty || (Processes(g, s, env) && env.resultCount == 0)
    ensures o.logged == o.ret
    ensures !o.logged ==> o.state == s
    ensures o.logged ==> o.state.frameIdx == NextFrameIndex(s.frameIdx)
  {
    if frameEmpty then Outcome(s, false, false)
    else if Processes(g, s, env) && env.resultCount == 0 then Outcome(s, false, false)
    else
      var processed := if Processes(g, s, env) then ProcessStages(g, s, env) else s;
      Outcome(ResultsStage(processed.(frameIdx := NextFrameIndex(processed.frameIdx)), env.rescaledVehicleZone), true, true)
  }

  /** The five box lists `run` hands to the log builder, in its order. */
  function LoggedLists(s: AdasState): seq<seq<Box>>
  {
    [s.boxes.humans, s.boxes.riders, s.boxes.vehicles, s.boxes.roadSigns, s.boxes.stopSigns]
  }

  /** The log `run` builds from the state it leaves. */
  function FrameLog(s: AdasState, t: Toggles, prior: Option<Json>, rescale: Box -> Box): Result<LogDocs, LogError>
  {
    JsonLogSpec(t, prior, s.result, LoggedLists(s), s.trackedObjs, rescale, s.frameIdx)
  }

  /** One input frame: whether the image is empty, and what the collaborators answer. */
  datatype Frame = Frame(empty: bool, env: FrameEnv)

  /** The state after a sequence of calls of `run`. */
  function RunAll(g: Geometry, s: AdasState, frames: seq<Frame>): AdasState
    requires g.frameStep != 0
    decreases |frames|
  {
    if |frames| == 0 then s
    else RunAll(g, RunStep(g, s, frames[0].empty, frames[0].env).state, frames[1..])
  }

  // ---------------------------------------------------------------------------------------------
  // The orchestrator

  class Adas {
    const toggles: Toggles
    const frameStep: int
    const videoWidth: int
    const videoHeight: int
    const modelWidth: int
    const modelHeight: int
    const focalRescaleRatio: real
    const roi: Rect

    var frameIdx: int
    var boxes: ClassBoxes
    var filtered: FilteredBoxes
    var laneBoxes: LaneBoxes
    var currLaneInfo: Zone
    var maxLaneWidth: int
    var isDetectLine: bool
    var yVanish: int
    var ldwWarnCounter: int
    var isLaneDeparture: bool
    var isForwardCollision: bool
    var objLists: TrackLists
    var trackedObjs: seq<TrackedObject>
    var rescaleVehicleZone: Zone
    var result: AdasResults

    function Geom(): Geometry
    {
      Geometry(frameStep, videoWidth, videoHeight, modelWidth, modelHeight, focalRescaleRatio, roi)
    }

    function State(): AdasState
      reads this
    {
      AdasState(
        frameIdx, boxes, filtered, laneBoxes,
        currLaneInfo, maxLaneWidth, isDetectLine, yVanish,
        ldwWarnCounter, isLaneDeparture, isForwardCollision,
        objLists, trackedObjs, rescaleVehicleZone, result)
    }

    /** The declared initial values, then `_init` from the configuration. */
    constructor (config: Config)
      requires config.modelHeight != 0
      ensures toggles == config.toggles
      ensures Geom() == GeometryOf(config)
      ensures State() == InitialState(config)
    {
      toggles := config.toggles;
      roi := CenteredRoi(config.modelWidth, config.modelHeight);
      videoWidth, videoHeight := config.frameWidth, config.frameHeight;
      modelWidth, modelHeight := config.modelWidth, config.modelHeight;
      frameStep := config.procFrameStep;
      focalRescaleRatio := config.frameHeight as real / config.modelHeight as real;
      frameIdx := 0;
      boxes := ClassBoxes([], [], [], [], []);
      filtered := FilteredBoxes([], [], []);
      laneBoxes := LaneBoxes([], [], [], [], [], []);
      currLaneInfo, maxLaneWidth, isDetectLine := ZERO_ZONE, 0, false;
      yVanish := config.yVanish;
      ldwWarnCounter, isLaneDeparture, isForwardCollision := 0, false, false;
      objLists, trackedObjs := TrackLists([], [], []), [];
      rescaleVehicleZone, result := ZERO_ZONE, EMPTY_RESULTS;
    }

    /** `_laneLineDetection`: store the lane boxes and the fitter's lane; move the vanish line only on a non-zero report. */
    method LaneLineDetection(env: FrameEnv) returns (ok: bool)
      modifies this`laneBoxes, this`currLaneInfo, this`maxLaneWidth, this`isDetectLine, this`yVanish
      ensures ok
      ensures State() == LaneLineStage(Geom(), old(State()), env)
    {
      var fit := env.laneFitter(env.proc.lanes);
      var tmpVanishY := fit.vanishY;
      var vanish := yVanish;
      if tmpVanishY != 0 {
        vanish := RoundHalfAway(tmpVanishY as real * focalRescaleRatio);
      }
      laneBoxes, currLaneInfo, maxLaneWidth, isDetectLine, yVanish :=
        env.proc.lanes, fit.laneInfo, fit.maxLaneWidth, fit.isDetectLine, vanish;
      ok := ADAS_SUCCESS != 0;
    }

    /** `_objectDetection`: store the detections, apply the proximity override, filter by class. */
    method ObjectDetection(env: FrameEnv) returns (ok: bool)
      modifies this`boxes, this`isDetectLine, this`filtered
      ensures ok
      ensures State() == DetectionStage(old(State()), env)
    {
      boxes := env.proc.objects;
      if env.carAheadWithin10(boxes.vehicles) {
        isDetectLine := false;
      }
      filtered := FilteredBoxes(env.humanFilter(boxes.humans), env.riderFilter(boxes.riders), env.vehicleFilter(boxes.vehicles));
      ok := ADAS_SUCCESS != 0;
    }

    /** `_objectTracking`: run the trackers, then rebuild the merged list from scratch. */
    method ObjectTracking(env: FrameEnv) returns (ok: bool)
      modifies this`objLists, this`trackedObjs
      ensures ok
      ensures State() == TrackingStage(Geom(), old(State()), env)
    {
      objLists := TrackLists(env.humanTracker(filtered.humans, yVanish, roi),
                             env.riderTracker(filtered.riders, yVanish, roi),
                             env.vehicleTracker(filtered.vehicles, yVanish, roi));
      trackedObjs := [];
      trackedObjs := trackedObjs + objLists.humans;
      trackedObjs := trackedObjs + objLists.riders;
      trackedObjs := trackedObjs + objLists.vehicles;
      ok := ADAS_SUCCESS != 0;
    }

    /** `_laneDepartureDetection`: with no lane detected, the warning may be cleared, never raised. */
    method LaneDepartureDetection(env: FrameEnv) returns (ok: bool)
      modifies this`ldwWarnCounter, this`isLaneDeparture
      ensures ok
      ensures isLaneDeparture ==> old(isLaneDeparture)
      ensures State() == DepartureStage(Geom(), old(State()), env)
    {
      if !isDetectLine {
        ldwWarnCounter := env.warnCounter;
        if LaneTooWide(maxLaneWidth, modelWidth) {
          isLaneDeparture := false;
        } else if ldwWarnCounter == 0 {
          isLaneDeparture := false;
        }
      }
      ok := ADAS_SUCCESS != 0;
    }

    /** `_forwardCollisionDetection`. */
    method ForwardCollisionDetection(env: FrameEnv) returns (ok: bool)
      modifies this`isForwardCollision
      ensures ok
      ensures State() == CollisionStage(old(State()), env)
    {
      isForwardCollision := env.fcw(trackedObjs, yVanish);
      ok := ADAS_SUCCESS != 0;
    }

    /** The five stages of a frame that passed the gate, each checked for success as `run` does. */
    method ProcessFrame(env: FrameEnv) returns (ret: bool)
      modifies this
      ensures ret
      ensures State() == ProcessStages(Geom(), old(State()), env)
    {
      ret := ADAS_SUCCESS != 0;
      ghost var s := State();
      var ok := LaneLineDetection(env);
      if !ok { ret := ADAS_FAILURE != 0; }
      s := LaneLineStage(Geom(), s, env);
      assert State() == s;
      ok := ObjectDetection(env);
      if !ok { ret := ADAS_FAILURE != 0; }
      s := DetectionStage(s, env);
      assert State() == s;
      ok := ObjectTracking(env);
      if !ok { ret := ADAS_FAILURE != 0; }
      s := TrackingStage(Geom(), s, env);
      assert State() == s;
      ok := LaneDepartureDetection(env);
      if !ok { ret := ADAS_FAILURE != 0; }
      s := DepartureStage(Geom(), s, env);
      assert State() == s;
      ok := ForwardCollisionDetection(env);
      if !ok { ret := ADAS_FAILURE != 0; }
    }

    /** `_updateFrameIndex`. */
    method UpdateFrameIndex()
      modifies this`frameIdx
      ensures State() == old(State()).(frameIdx := NextFrameIndex(old(frameIdx)))
    {
      frameIdx := CRem(frameIdx, FRAME_INDEX_MODULUS) + 1;
    }

    /** `getDetectEvents`: the event code of the two warning flags. */
    method GetDetectEvents() returns (code: int)
      ensures code == EventCode(ClassifyEvent(isLaneDeparture, isForwardCollision))
    {
      if isLaneDeparture && isForwardCollision {
        code := EventCode(LdwFcw);
      } else if isLaneDeparture {
        code := EventCode(Ldw);
      } else if isForwardCollision {
        code := EventCode(Fcw);
      } else {
        code := EventCode(Normal);
      }
    }

    /** `getResults`, given the rescaled FCW vehicle zone: the corners only when both far points are off row 0. */
    method GetResults(zone: Zone) returns (res: AdasResults)
      modifies this`rescaleVehicleZone, this`result
      ensures res == result
      ensures State() == ResultsStage(old(State()), zone)
    {
      rescaleVehicleZone := zone;
      result := result.(isDetectLine := isDetectLine);
      if rescaleVehicleZone.pLeftFar.y != 0 && rescaleVehicleZone.pRightFar.y != 0 {
        result := result.(pLeftFar := rescaleVehicleZone.pLeftFar, pLeftCarhood := rescaleVehicleZone.pLeftCarhood,
                          pRightFar := rescaleVehicleZone.pRightFar, pRightCarhood := rescaleVehicleZone.pRightCarhood);
      }
      result := result.(yVanish := yVanish);
      var eventType := GetDetectEvents();
      result := result.(eventType := eventType);
      result := result.(objList := trackedObjs);
      res := result;
    }

    /**
     * `getFollowingDistance`: the distance of the tracked vehicle with the largest positive box
     * area, the first one on ties, or -1 when there is none.
     */
    method GetFollowingDistance(area: Box -> int) returns (followDistance: real)
      ensures followDistance == FollowingDistance(objLists.vehicles, area)
    {
      var vehicles := objLists.vehicles;
      var maxArea := 0;
      followDistance := -1.0;
      var i := 0;
      while i < |vehicles|
        invariant 0 <= i <= |vehicles|
        invariant followDistance == FollowingDistance(vehicles[..i], area)
        invariant maxArea == (match FollowingIndex(vehicles[..i], area)
                              case None => 0
                              case Some(k) => area(vehicles[k].bbox))
      {
        var obj := vehicles[i];
        assert vehicles[..i + 1][..i] == vehicles[..i];
        if area(obj.bbox) > maxArea {
          maxArea := area(obj.bbox);
          followDistance := obj.distanceToCamera;
        }
        i := i + 1;
      }
      assert vehicles[..i] == vehicles;
    }

    /**
     * `run` on one frame: the stages, the index update, the results and the frame log. The
     * outcome is `Ok` of `run`'s return value, or `Err` when the log builder throws, in which case
     * `run` does not return and the state changes made before the throw stay.
     */
    method Run(frameEmpty: bool, env: FrameEnv, prior: Option<Json>, rescale: Box -> Box)
      returns (outcome: Result<bool, LogError>, log: Option<LogDocs>)
      requires frameStep != 0
      modifies this
      ensures var o := RunStep(Geom(), old(State()), frameEmpty, env);
        State() == o.state &&
        (!o.logged ==> outcome == Ok(false) && log == None) &&
        (o.logged && FrameLog(o.state, toggles, prior, rescale).Ok? ==>
           outcome == Ok(true) && log == Some(FrameLog(o.state, toggles, prior, rescale).value)) &&
        (o.logged && FrameLog(o.state, toggles, prior, rescale).Err? ==>
           outcome == Err(FrameLog(o.state, toggles, prior, rescale).error) && log == None)
    {
      var ret := ADAS_SUCCESS != 0;
      if frameEmpty {
        return Ok(false), None;
      }
      ghost var s := State();
      if CRem(frameIdx, frameStep) == 0 {
        var predBufferSize := env.predictionCount;
        if predBufferSize > 0 {
          var resultBufferSize := env.resultCount;
          if resultBufferSize == 0 {
            return Ok(false), None;
          }
          ret := ProcessFrame(env);
          s := ProcessStages(Geom(), s, env);
        }
      }
      UpdateFrameIndex();
      s := s.(frameIdx := NextFrameIndex(s.frameIdx));
      assert State() == s;
      var adasResult := GetResults(env.rescaledVehicleZone);
      var lists := [boxes.humans, boxes.riders, boxes.vehicles, boxes.roadSigns, boxes.stopSigns];
      var doc := JsonLogString(toggles, prior, adasResult, lists, trackedObjs, rescale, frameIdx);
      match doc {
        case Ok(d) =>
          outcome, log := Ok(ret), Some(d);
        case Err(e) =>
          outcome, log := Err(e), None;
      }
    }
  }
}
