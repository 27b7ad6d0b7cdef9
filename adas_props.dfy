/**
 * What one call and a sequence of calls of `run` promise: which frames are processed, what a
 * processed or skipped frame leaves behind, that the lane-departure warning is never raised, that
 * the frame counter stays in range, and where the frame log puts the frame.
 */
module AdasProps {
  import opened Basics
  import opened AdasTypes
  import opened Decimal
  import opened JsonDoc
  import opened JsonLog
  import JsonLogProps
  import opened AdasPipeline

  // ---------------------------------------------------------------------------------------------
  // One frame

  /** The first call after `_init` passes the index gate whatever the step: 0 is a multiple of everything. */
  lemma FirstFrameGate(config: Config, env: FrameEnv)
    requires config.modelHeight != 0 && config.procFrameStep != 0
    ensures Processes(GeometryOf(config), InitialState(config), env) <==> env.predictionCount > 0
  {
  }

  /**
   * A frame that does not pass the gate still advances the index and refreshes the results, but
   * keeps the detections, tracks, lane state and warnings of the last processed frame.
   */
  lemma SkippedFrameKeepsPerception(g: Geometry, s: AdasState, env: FrameEnv)
    requires g.frameStep != 0 && !Processes(g, s, env)
    ensures var o := RunStep(g, s, false, env);
      o.ret && o.state.frameIdx == NextFrameIndex(s.frameIdx) &&
      o.state.boxes == s.boxes && o.state.filtered == s.filtered && o.state.laneBoxes == s.laneBoxes &&
      o.state.objLists == s.objLists && o.state.trackedObjs == s.trackedObjs &&
      o.state.isDetectLine == s.isDetectLine && o.state.yVanish == s.yVanish &&
      o.state.isLaneDeparture == s.isLaneDeparture && o.state.isForwardCollision == s.isForwardCollision &&
      o.state.result.objList == s.trackedObjs &&
      o.state.result.eventType == EventCode(ClassifyEvent(s.isLaneDeparture, s.isForwardCollision))
  {
  }

  /**
   * A frame that passes the gate with a result ready: the detections are this frame's, a lane
   * counts as detected only if the fitter found one and no car is within 10 m, the tracked list is
   * the three trackers' lists in order, the collision flag is FCW's verdict on it, the warning for
   * lane departure is at most kept, and the results report all of this.
   */
  lemma ProcessedFrameFacts(g: Geometry, s: AdasState, env: FrameEnv)
    requires g.frameStep != 0 && Processes(g, s, env) && env.resultCount != 0
    ensures var o := RunStep(g, s, false, env); var fit := env.laneFitter(env.proc.lanes);
      o.ret && o.state.boxes == env.proc.objects && o.state.laneBoxes == env.proc.lanes &&
      o.state.isDetectLine == (fit.isDetectLine && !env.carAheadWithin10(env.proc.objects.vehicles)) &&
      o.state.yVanish == UpdatedVanishLine(s.yVanish, fit.vanishY, g.focalRescaleRatio) &&
      o.state.trackedObjs == o.state.objLists.humans + o.state.objLists.riders + o.state.objLists.vehicles &&
      o.state.isForwardCollision == env.fcw(o.state.trackedObjs, o.state.yVanish) &&
      (o.state.isLaneDeparture ==> s.isLaneDeparture) &&
      o.state.result.objList == o.state.trackedObjs && o.state.result.isDetectLine == o.state.isDetectLine &&
      o.state.result.yVanish == o.state.yVanish &&
      FcwFlag(o.state.result.eventType) == (if o.state.isForwardCollision then 1 else 0)
  {
    var o := RunStep(g, s, false, env);
    FlagsRecoverWarnings(o.state.isLaneDeparture, o.state.isForwardCollision);
  }

  /**
   * A frame whose post-processing result is not ready changes nothing, so the same index is
   * offered again: the next call passes the gate exactly when a prediction is waiting.
   */
  lemma PendingResultRetried(g: Geometry, s: AdasState, env: FrameEnv, next: FrameEnv)
    requires g.frameStep != 0 && Processes(g, s, env) && env.resultCount == 0
    ensures var o := RunStep(g, s, false, env);
      !o.ret && o.state == s && (Processes(g, o.state, next) <==> next.predictionCount > 0)
  {
  }

  /** Refreshing the results twice from the same zone is the same as once. */
  lemma ResultsIdempotent(s: AdasState, zone: Zone)
    ensures ResultsStage(ResultsStage(s, zone), zone) == ResultsStage(s, zone)
  {
  }

  /**
   * With a zone whose far points both lie off row 0, the reported corners are the zone's whatever
   * came before; when either far point lies on row 0, the previously reported corners are kept.
   */
  lemma ResultsCornersFromZone(s: AdasState, zone: Zone)
    ensures var r := ResultsStage(s, zone).result;
      zone.pLeftFar.y != 0 && zone.pRightFar.y != 0 ==>
        r.pLeftFar == zone.pLeftFar && r.pLeftCarhood == zone.pLeftCarhood &&
        r.pRightFar == zone.pRightFar && r.pRightCarhood == zone.pRightCarhood
    ensures var r := ResultsStage(s, zone).result;
      zone.pLeftFar.y == 0 || zone.pRightFar.y == 0 ==>
        r.pLeftFar == s.result.pLeftFar && r.pLeftCarhood == s.result.pLeftCarhood &&
        r.pRightFar == s.result.pRightFar && r.pRightCarhood == s.result.pRightCarhood
  {
  }

  // ---------------------------------------------------------------------------------------------
  // Sequences of frames

  /** Neither the departure flag nor the `LDW` bit of the reported event can be switched on by `run`. */
  lemma {:induction false} LaneDepartureNeverRaised(g: Geometry, s: AdasState, frames: seq<Frame>)
    requires g.frameStep != 0
    requires !s.isLaneDeparture && LdwFlag(s.result.eventType) == 0
    ensures !RunAll(g, s, frames).isLaneDeparture && LdwFlag(RunAll(g, s, frames).result.eventType) == 0
    decreases |frames|
  {
    if |frames| > 0 {
      var next := RunStep(g, s, frames[0].empty, frames[0].env).state;
      assert !next.isLaneDeparture && LdwFlag(next.result.eventType) == 0 by {
        if Processes(g, s, frames[0].env) {
          assert !ProcessStages(g, s, frames[0].env).isLaneDeparture;
        }
      }
      LaneDepartureNeverRaised(g, next, frames[1..]);
    }
  }

  /** From `_init` on, no frame ever reports a lane departure. */
  lemma NoLaneDepartureFromInit(config: Config, frames: seq<Frame>)
    requires config.modelHeight != 0 && config.procFrameStep != 0
    ensures var s := RunAll(GeometryOf(config), InitialState(config), frames);
      !s.isLaneDeparture && s.result.eventType != EventCode(Ldw) && s.result.eventType != EventCode(LdwFcw)
  {
    LaneDepartureNeverRaised(GeometryOf(config), InitialState(config), frames);
  }

  /** The counter stays within 0..65535 over any sequence of calls. */
  lemma {:induction false} FrameIndexInRange(g: Geometry, s: AdasState, frames: seq<Frame>)
    requires g.frameStep != 0 && 0 <= s.frameIdx <= FRAME_INDEX_MODULUS
    ensures 0 <= RunAll(g, s, frames).frameIdx <= FRAME_INDEX_MODULUS
    decreases |frames|
  {
    if |frames| > 0 {
      FrameIndexInRange(g, RunStep(g, s, frames[0].empty, frames[0].env).state, frames[1..]);
    }
  }

  /** Every call of `run` along the sequence returns true. */
  ghost predicate AllReturnTrue(g: Geometry, s: AdasState, frames: seq<Frame>)
    requires g.frameStep != 0
    decreases |frames|
  {
    |frames| == 0 ||
    (RunStep(g, s, frames[0].empty, frames[0].env).ret &&
     AllReturnTrue(g, RunStep(g, s, frames[0].empty, frames[0].env).state, frames[1..]))
  }

  /** Calls that all return true advance the counter once each, exactly as from `_init`. */
  lemma {:induction false} LoggedFramesCount(g: Geometry, s: AdasState, frames: seq<Frame>, n: nat)
    requires g.frameStep != 0 && s.frameIdx == FrameIndexAfter(n)
    requires AllReturnTrue(g, s, frames)
    ensures RunAll(g, s, frames).frameIdx == FrameIndexAfter(n + |frames|)
    decreases |frames|
  {
    if |frames| > 0 {
      var next := RunStep(g, s, frames[0].empty, frames[0].env).state;
      assert next.frameIdx == FrameIndexAfter(n + 1);
      LoggedFramesCount(g, next, frames[1..], n + 1);
    }
  }

  // ---------------------------------------------------------------------------------------------
  // The frame log of `run`

  /**
   * The log `run` builds is keyed by the advanced index: the current-frame document has nothing
   * under any other frame, and the history document keeps what it had there.
   */
  lemma RunLogKeyedByNextIndex(g: Geometry, s: AdasState, env: FrameEnv, t: Toggles, prior: Option<Json>,
                               rescale: Box -> Box, docs: LogDocs, q: Path)
    requires g.frameStep != 0
    requires var o := RunStep(g, s, false, env); o.logged && FrameLog(o.state, t, prior, rescale) == Ok(docs)
    requires |q| >= 2 && (q[0] != "frame_ID" || q[1] != IntToString(NextFrameIndex(s.frameIdx)))
    ensures Get(docs.current, q) == None
    ensures docs.saved.Some? ==> Get(docs.saved.value, q) == Get(HistoryStart(t, prior), q)
  {
    var o := RunStep(g, s, false, env);
    JsonLogProps.OtherFramesUntouched(t, prior, o.state.result, LoggedLists(o.state), o.state.trackedObjs,
                                      rescale, o.state.frameIdx, docs, q);
  }

  /** The history document keeps every earlier frame it read, as long as the index has not come round again. */
  lemma RunLogKeepsEarlierFrames(g: Geometry, s: AdasState, env: FrameEnv, t: Toggles, prior: Option<Json>,
                                 rescale: Box -> Box, docs: LogDocs, earlier: int, rest: Path)
    requires g.frameStep != 0
    requires var o := RunStep(g, s, false, env); o.logged && FrameLog(o.state, t, prior, rescale) == Ok(docs)
    requires earlier != NextFrameIndex(s.frameIdx) && prior.Some? && docs.saved.Some?
    ensures Get(docs.saved.value, ["frame_ID", IntToString(earlier)] + rest)
         == Get(prior.value, ["frame_ID", IntToString(earlier)] + rest)
  {
    var o := RunStep(g, s, false, env);
    JsonLogProps.EarlierFramesKept(t, prior, o.state.result, LoggedLists(o.state), o.state.trackedObjs,
                                   rescale, o.state.frameIdx, docs, earlier, rest);
  }

  /**
   * With detections logged, a frame with more than five humans makes the detection loop read past
   * the five lists `run` passes, so no log can be built.
   */
  lemma CrowdedFrameLogFails(g: Geometry, s: AdasState, env: FrameEnv, t: Toggles, prior: Option<Json>,
                             rescale: Box -> Box)
    requires g.frameStep != 0 && t.saveDetObj
    requires var o := RunStep(g, s, false, env); o.logged && |o.state.boxes.humans| > 5
    ensures FrameLog(RunStep(g, s, false, env).state, t, prior, rescale).Err?
  {
    var o := RunStep(g, s, false, env);
    JsonLogProps.DetectionOverrunFails(t, prior, o.state.result, LoggedLists(o.state), o.state.trackedObjs,
                                       rescale, o.state.frameIdx);
  }

  /** With detections logged and no human in the frame, the log has no detections for the frame at all. */
  lemma NoHumansNoDetectionsLogged(g: Geometry, s: AdasState, env: FrameEnv, t: Toggles, prior: Option<Json>,
                                   rescale: Box -> Box, docs: LogDocs)
    requires g.frameStep != 0
    requires var o := RunStep(g, s, false, env);
      o.logged && |o.state.boxes.humans| == 0 && FrameLog(o.state, t, prior, rescale) == Ok(docs)
    ensures Get(docs.current, SectionPath(NextFrameIndex(s.frameIdx), "detectObj")) == None
  {
    var o := RunStep(g, s, false, env);
    JsonLogProps.NoHumansNoDetections(t, prior, o.state.result, LoggedLists(o.state), o.state.trackedObjs,
                                      rescale, o.state.frameIdx, docs);
  }
}
