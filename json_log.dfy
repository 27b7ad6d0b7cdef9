/**
 * `JSON_LOG`: the per-frame log builders. Each builder fills two documents statement by
 * statement: the history document (the parsed log file when saving to file is on, else null) and
 * the current-frame document (always starting from null). Every statement writes the same section
 * under `frame_ID` -> decimal frame index -> section name into both, history first.
 *
 * The behaviour of a builder is specified as two edit scripts (`seq<Step>`) run in lockstep from
 * the two starting documents; the builder methods below are loops proved to produce exactly that.
 */
module JsonLog {
  import opened Basics
  import opened Decimal
  import opened JsonDoc
  import opened AdasTypes

  /** The switches the builders consult (`SaveToJSONFile`, `SaveVanishLineLog`, ...). */
  datatype Toggles = Toggles(
    saveToJsonFile: bool, saveVanishLine: bool, saveLaneInfo: bool,
    saveDetObj: bool, saveTrackObj: bool, saveLdw: bool, saveFcw: bool)

  /**
   * What a builder produces: the current-frame document (whose text it returns) and, when saving
   * to file is on, the history document it writes back to the log file.
   */
  datatype LogDocs = LogDocs(current: Json, saved: Option<Json>)

  function SectionPath(frameIdx: int, section: string): Path
  {
    ["frame_ID", IntToString(frameIdx), section]
  }

  function LabelPath(frameIdx: int, section: string, name: string): Path
  {
    SectionPath(frameIdx, section) + [name]
  }

  /** The history document a builder starts from: the log file's content if it is read, else null. */
  function HistoryStart(t: Toggles, prior: Option<Json>): Json
  {
    if t.saveToJsonFile && prior.Some? then prior.value else Null
  }

  // ---------------------------------------------------------------------------------------------
  // Section values

  function VanishArray(res: AdasResults): Json
  {
    Arr([Obj(map["vanishlineY" := Int(res.yVanish)])])
  }

  function LaneArray(res: AdasResults): Json
  {
    Arr([Obj(map[
      "pLeftFar.x" := Int(res.pLeftFar.x), "pLeftFar.y" := Int(res.pLeftFar.y),
      "pLeftCarhood.x" := Int(res.pLeftCarhood.x), "pLeftCarhood.y" := Int(res.pLeftCarhood.y),
      "pRightFar.x" := Int(res.pRightFar.x), "pRightFar.y" := Int(res.pRightFar.y),
      "pRightCarhood.x" := Int(res.pRightCarhood.x), "pRightCarhood.y" := Int(res.pRightCarhood.y),
      "isDetectLine" := Bool(res.isDetectLine)])])
  }

  /** A detection entry of `JsonLogString`, from the rescaled box. */
  function DetectionEntry(b: Box): Json
  {
    Obj(map[
      "detectObj.x1" := Int(b.x1), "detectObj.y1" := Int(b.y1),
      "detectObj.x2" := Int(b.x2), "detectObj.y2" := Int(b.y2),
      "detectObj.objID" := Int(b.objID), "detectObj.label" := Int(b.classId),
      "detectObj.confidence" := Float(b.confidence), "detectObj.boxID" := Int(b.boxID)])
  }

  /** A detection entry of `JsonLogString_2`: the class is written as a fixed name. */
  function NamedDetectionEntry(b: Box, name: string): Json
  {
    Obj(map[
      "detectObj.x1" := Int(b.x1), "detectObj.y1" := Int(b.y1),
      "detectObj.x2" := Int(b.x2), "detectObj.y2" := Int(b.y2),
      "detectObj.label" := Str(name), "detectObj.confidence" := Float(b.confidence)])
  }

  /**
   * A tracked-object entry, from the object and its rescaled last box. `JsonLogString` writes the
   * status and the distance as is; `JsonLogString_2` drops the status and rounds the distance.
   */
  function TrackEntry(o: TrackedObject, b: Box, name: string, second: bool): Json
  {
    var coords := map[
      "trackObj.x1" := Int(b.x1), "trackObj.y1" := Int(b.y1),
      "trackObj.x2" := Int(b.x2), "trackObj.y2" := Int(b.y2),
      "trackObj.bbox.label" := Str(name), "trackedObj.id" := Int(o.id)];
    if second then Obj(coords["trackObj.distanceToCamera" := Float(RoundHalfAway(o.distanceToCamera) as real)])
    else Obj(coords["trackObj.status" := Int(o.status)]["trackObj.distanceToCamera" := Float(o.distanceToCamera)])
  }

  /** The `ADAS` entry of `JsonLogString_2`: an object with the enabled flags, or null if none is. */
  function AdasEntry(t: Toggles, eventType: int): Json
  {
    if t.saveLdw && t.saveFcw then Obj(map["LDW" := Int(LdwFlag(eventType)), "FCW" := Int(FcwFlag(eventType))])
    else if t.saveLdw then Obj(map["LDW" := Int(LdwFlag(eventType))])
    else if t.saveFcw then Obj(map["FCW" := Int(FcwFlag(eventType))])
    else Null
  }

  // ---------------------------------------------------------------------------------------------
  // Edit scripts

  function VanishSteps(t: Toggles, res: AdasResults, frameIdx: int): seq<Step>
  {
    if t.saveVanishLine then [Edit(SectionPath(frameIdx, "vanishLineY"), Assign(VanishArray(res)))] else []
  }

  function LaneSteps(t: Toggles, res: AdasResults, frameIdx: int): seq<Step>
  {
    if t.saveLaneInfo then [Edit(SectionPath(frameIdx, "LaneInfo"), Assign(LaneArray(res)))] else []
  }

  /** The vanish-line and lane-info statements, common to both builders. */
  function LineSteps(t: Toggles, res: AdasResults, frameIdx: int): seq<Step>
  {
    VanishSteps(t, res, frameIdx) + LaneSteps(t, res, frameIdx)
  }

  /** `JsonLogString`: each box replaces its label's slot with a one-element array. */
  function DetectionStep(b: Box, rescale: Box -> Box, frameIdx: int): Step
  {
    var rb := rescale(b);
    Edit(LabelPath(frameIdx, "detectObj", DetectionLabel(rb.classId)), Assign(Arr([DetectionEntry(rb)])))
  }

  function DetectionSteps(boxes: seq<Box>, rescale: Box -> Box, frameIdx: int): seq<Step>
  {
    seq(|boxes|, i requires 0 <= i < |boxes| => DetectionStep(boxes[i], rescale, frameIdx))
  }

  /**
   * The lists `j`, `j + 1`, ... up to `bound`. Reading a list past the end of the array is
   * undefined behaviour in C++: the script stops there with `Undefined`.
   */
  function DetectionListSteps(lists: seq<seq<Box>>, j: nat, bound: nat, rescale: Box -> Box, frameIdx: int): seq<Step>
    decreases bound - j
  {
    if j >= bound then []
    else if j >= |lists| then [Undefined]
    else DetectionSteps(lists[j], rescale, frameIdx) + DetectionListSteps(lists, j + 1, bound, rescale, frameIdx)
  }

  /** The outer detection loop runs over as many lists as the first list has boxes. */
  function DetectionSection(lists: seq<seq<Box>>, rescale: Box -> Box, frameIdx: int): seq<Step>
  {
    if |lists| == 0 then [Undefined] else DetectionListSteps(lists, 0, |lists[0]|, rescale, frameIdx)
  }

  /**
   * The detection section with the outer loop bounded by the number of lists passed, as the loop
   * over the array of lists evidently intends.
   */
  function IntendedDetectionSection(lists: seq<seq<Box>>, rescale: Box -> Box, frameIdx: int): (r: seq<Step>)
    ensures |lists| > 0 && |lists[0]| == |lists| ==> r == DetectionSection(lists, rescale, frameIdx)
    ensures |lists| == 0 ==> r == [] && DetectionSection(lists, rescale, frameIdx) == [Undefined]
  {
    DetectionListSteps(lists, 0, |lists|, rescale, frameIdx)
  }

  /** `JsonLogString_2`: each box appends to a fixed key; `name` is the label written inside. */
  function AppendSteps(boxes: seq<Box>, rescale: Box -> Box, frameIdx: int, key: string, name: string): seq<Step>
  {
    seq(|boxes|, i requires 0 <= i < |boxes| =>
      Edit(LabelPath(frameIdx, "detectObj", key), Append(NamedDetectionEntry(rescale(boxes[i]), name))))
  }

  /** The rider key of `JsonLogString_2`: the history document gets it with a space. */
  function RiderKey(forHistory: bool): string
  {
    if forHistory then "SMALL VEHICLE" else "SMALL_VEHICLE"
  }

  /** The stop-sign key of `JsonLogString_2`: the history document gets it without the underscore. */
  function StopSignKey(forHistory: bool): string
  {
    if forHistory then "STOPSIGN" else "STOP_SIGN"
  }

  /** Vehicles, then humans, then riders, then stop signs; road signs are not logged. */
  function AppendSection(forHistory: bool, humans: seq<Box>, riders: seq<Box>, vehicles: seq<Box>, stopSigns: seq<Box>,
                         rescale: Box -> Box, frameIdx: int): seq<Step>
  {
    AppendSteps(vehicles, rescale, frameIdx, "VEHICLE", "VEHICLE")
    + AppendSteps(humans, rescale, frameIdx, "HUMAN", "HUMAN")
    + AppendSteps(riders, rescale, frameIdx, RiderKey(forHistory), "SMALL_VEHICLE")
    + AppendSteps(stopSigns, rescale, frameIdx, StopSignKey(forHistory), "STOP_SIGN")
  }

  /** The step for one tracked object with a non-empty box history (its last box, rescaled). */
  function TrackStep(o: TrackedObject, rescale: Box -> Box, frameIdx: int, second: bool): Step
    requires |o.bboxList| > 0
  {
    var last := o.bboxList[|o.bboxList| - 1];
    var name := TrackingLabel(last.classId);
    var entry := TrackEntry(o, rescale(last), name, second);
    Edit(LabelPath(frameIdx, "trackObj", name), if second then Append(entry) else Assign(Arr([entry])))
  }

  /** Objects with an empty box history are skipped. */
  function TrackSteps(objs: seq<TrackedObject>, rescale: Box -> Box, frameIdx: int, second: bool): seq<Step>
    decreases |objs|
  {
    if |objs| == 0 then []
    else
      (if |objs[0].bboxList| == 0 then [] else [TrackStep(objs[0], rescale, frameIdx, second)])
      + TrackSteps(objs[1..], rescale, frameIdx, second)
  }

  /** The detection and tracking statements of `JsonLogString`, each behind its toggle. */
  function ObjectSteps(t: Toggles, lists: seq<seq<Box>>, tracked: seq<TrackedObject>, rescale: Box -> Box, frameIdx: int)
    : seq<Step>
  {
    (if t.saveDetObj then DetectionSection(lists, rescale, frameIdx) else [])
    + (if t.saveTrackObj then TrackSteps(tracked, rescale, frameIdx, false) else [])
  }

  /** The statements of `JsonLogString`; both documents receive the same ones. */
  function Script(t: Toggles, res: AdasResults, lists: seq<seq<Box>>, tracked: seq<TrackedObject>,
                  rescale: Box -> Box, frameIdx: int): seq<Step>
  {
    LineSteps(t, res, frameIdx) + ObjectSteps(t, lists, tracked, rescale, frameIdx)
  }

  /** The `ADAS` statement of `JsonLogString_2`, which has no toggle of its own. */
  function AdasSteps(t: Toggles, res: AdasResults, frameIdx: int): seq<Step>
  {
    [Edit(SectionPath(frameIdx, "ADAS"), Append(AdasEntry(t, res.eventType)))]
  }

  /** The detection and tracking statements of `JsonLogString_2`, each behind its toggle. */
  function ObjectSteps2(t: Toggles, forHistory: bool, humans: seq<Box>, riders: seq<Box>, vehicles: seq<Box>,
                        stopSigns: seq<Box>, tracked: seq<TrackedObject>, rescale: Box -> Box, frameIdx: int): seq<Step>
  {
    (if t.saveDetObj then AppendSection(forHistory, humans, riders, vehicles, stopSigns, rescale, frameIdx) else [])
    + (if t.saveTrackObj then TrackSteps(tracked, rescale, frameIdx, true) else [])
  }

  /** The statements of `JsonLogString_2` for one of the two documents. */
  function Script2(t: Toggles, forHistory: bool, res: AdasResults, humans: seq<Box>, riders: seq<Box>,
                   vehicles: seq<Box>, stopSigns: seq<Box>, tracked: seq<TrackedObject>,
                   rescale: Box -> Box, frameIdx: int): seq<Step>
  {
    AdasSteps(t, res, frameIdx)
    + (LineSteps(t, res, frameIdx) + ObjectSteps2(t, forHistory, humans, riders, vehicles, stopSigns, tracked, rescale, frameIdx))
  }

  function Finish(t: Toggles, run: Result<(Json, Json), LogError>): Result<LogDocs, LogError>
  {
    match run
    case Err(e) => Err(e)
    case Ok(docs) => Ok(LogDocs(docs.1, if t.saveToJsonFile then Some(docs.0) else None))
  }

  /** What `JsonLogString` computes. */
  function JsonLogSpec(t: Toggles, prior: Option<Json>, res: AdasResults, lists: seq<seq<Box>>,
                       tracked: seq<TrackedObject>, rescale: Box -> Box, frameIdx: int): Result<LogDocs, LogError>
  {
    var s := Script(t, res, lists, tracked, rescale, frameIdx);
    Finish(t, RunPair(HistoryStart(t, prior), Null, s, s))
  }

  /** What `JsonLogString_2` computes. */
  function JsonLog2Spec(t: Toggles, prior: Option<Json>, res: AdasResults, humans: seq<Box>, riders: seq<Box>,
                        vehicles: seq<Box>, stopSigns: seq<Box>, tracked: seq<TrackedObject>,
                        rescale: Box -> Box, frameIdx: int): Result<LogDocs, LogError>
  {
    var hs := Script2(t, true, res, humans, riders, vehicles, stopSigns, tracked, rescale, frameIdx);
    var cs := Script2(t, false, res, humans, riders, vehicles, stopSigns, tracked, rescale, frameIdx);
    Finish(t, RunPair(HistoryStart(t, prior), Null, hs, cs))
  }

  // ---------------------------------------------------------------------------------------------
  // The builders

  /** One statement pair: the edit on the history document, then the same edit on the current one. */
  method EditBoth(h: Json, c: Json, hp: Path, cp: Path, op: Op) returns (r: Result<(Json, Json), LogError>)
    ensures r == RunPair(h, c, [Edit(hp, op)], [Edit(cp, op)])
  {
    var h1 := Modify(h, hp, op);
    if h1.Err? {
      return Err(h1.error);
    }
    var c1 := Modify(c, cp, op);
    if c1.Err? {
      return Err(c1.error);
    }
    return Ok((h1.value, c1.value));
  }

  /** The inner detection loop of `JsonLogString`: the boxes of one list. */
  method WriteDetectionList(h: Json, c: Json, boxes: seq<Box>, rescale: Box -> Box, frameIdx: int)
    returns (r: Result<(Json, Json), LogError>)
    ensures r == RunPair(h, c, DetectionSteps(boxes, rescale, frameIdx), DetectionSteps(boxes, rescale, frameIdx))
  {
    ghost var steps := DetectionSteps(boxes, rescale, frameIdx);
    var hd, cd := h, c;
    var i := 0;
    while i < |boxes|
      invariant i <= |boxes|
      invariant RunPair(hd, cd, steps[i..], steps[i..]) == RunPair(h, c, steps, steps)
    {
      var rb := rescale(boxes[i]);
      var path := LabelPath(frameIdx, "detectObj", DetectionLabel(rb.classId));
      assert steps[i..][0] == Edit(path, Assign(Arr([DetectionEntry(rb)])));
      assert steps[i..][1..] == steps[i + 1..];
      var next := EditBoth(hd, cd, path, path, Assign(Arr([DetectionEntry(rb)])));
      if next.Err? {
        return Err(next.error);
      }
      hd, cd := next.value.0, next.value.1;
      i := i + 1;
    }
    return Ok((hd, cd));
  }

  /** The outer detection loop of `JsonLogString`, bounded by the size of the first list. */
  method WriteDetections(h: Json, c: Json, lists: seq<seq<Box>>, rescale: Box -> Box, frameIdx: int)
    returns (r: Result<(Json, Json), LogError>)
    ensures r == RunPair(h, c, DetectionSection(lists, rescale, frameIdx), DetectionSection(lists, rescale, frameIdx))
  {
    if |lists| == 0 {
      return Err(UndefinedRead);
    }
    ghost var all := DetectionSection(lists, rescale, frameIdx);
    var bound := |lists[0]|;
    var hd, cd := h, c;
    var j := 0;
    while j < bound
      invariant j <= bound
      invariant RunPair(hd, cd, DetectionListSteps(lists, j, bound, rescale, frameIdx),
                        DetectionListSteps(lists, j, bound, rescale, frameIdx)) == RunPair(h, c, all, all)
    {
      if j >= |lists| {
        return Err(UndefinedRead);
      }
      ghost var steps := DetectionSteps(lists[j], rescale, frameIdx);
      ghost var tail := DetectionListSteps(lists, j + 1, bound, rescale, frameIdx);
      RunPairConcat(hd, cd, steps, tail, steps, tail);
      var next := WriteDetectionList(hd, cd, lists[j], rescale, frameIdx);
      if next.Err? {
        return Err(next.error);
      }
      hd, cd := next.value.0, next.value.1;
      j := j + 1;
    }
    return Ok((hd, cd));
  }

  /** The tracking statements from object `i` on: its own (if it has a box history), then the rest. */
  lemma TrackStepsFrom(objs: seq<TrackedObject>, i: nat, rescale: Box -> Box, frameIdx: int, second: bool)
    requires i < |objs|
    ensures TrackSteps(objs[i..], rescale, frameIdx, second)
      == (if |objs[i].bboxList| == 0 then [] else [TrackStep(objs[i], rescale, frameIdx, second)])
         + TrackSteps(objs[i + 1..], rescale, frameIdx, second)
  {
    assert objs[i..][0] == objs[i] && objs[i..][1..] == objs[i + 1..];
  }

  /** The tracked-object loop of both builders. */
  method WriteTracks(h: Json, c: Json, objs: seq<TrackedObject>, rescale: Box -> Box, frameIdx: int, second: bool)
    returns (r: Result<(Json, Json), LogError>)
    ensures r == RunPair(h, c, TrackSteps(objs, rescale, frameIdx, second), TrackSteps(objs, rescale, frameIdx, second))
  {
    ghost var all := TrackSteps(objs, rescale, frameIdx, second);
    var hd, cd := h, c;
    var i := 0;
    while i < |objs|
      invariant i <= |objs|
      invariant RunPair(hd, cd, TrackSteps(objs[i..], rescale, frameIdx, second),
                        TrackSteps(objs[i..], rescale, frameIdx, second)) == RunPair(h, c, all, all)
    {
      TrackStepsFrom(objs, i, rescale, frameIdx, second);
      var o := objs[i];
      if |o.bboxList| == 0 {
        assert TrackSteps(objs[i..], rescale, frameIdx, second) == TrackSteps(objs[i + 1..], rescale, frameIdx, second);
        i := i + 1;
        continue;
      }
      var last := o.bboxList[|o.bboxList| - 1];
      var name := TrackingLabel(last.classId);
      var entry := TrackEntry(o, rescale(last), name, second);
      var op := if second then Append(entry) else Assign(Arr([entry]));
      var path := LabelPath(frameIdx, "trackObj", name);
      ghost var here := [TrackStep(o, rescale, frameIdx, second)] + TrackSteps(objs[i + 1..], rescale, frameIdx, second);
      assert here[0] == Edit(path, op) && here[1..] == TrackSteps(objs[i + 1..], rescale, frameIdx, second);
      var next := EditBoth(hd, cd, path, path, op);
      if next.Err? {
        return Err(next.error);
      }
      hd, cd := next.value.0, next.value.1;
      i := i + 1;
    }
    assert objs[i..] == [];
    return Ok((hd, cd));
  }

  /** One detection loop of `JsonLogString_2`: the two documents may use different keys. */
  method AppendDetections(h: Json, c: Json, boxes: seq<Box>, rescale: Box -> Box, frameIdx: int,
                          historyKey: string, currentKey: string, name: string)
    returns (r: Result<(Json, Json), LogError>)
    ensures r == RunPair(h, c, AppendSteps(boxes, rescale, frameIdx, historyKey, name),
                         AppendSteps(boxes, rescale, frameIdx, currentKey, name))
  {
    ghost var hs := AppendSteps(boxes, rescale, frameIdx, historyKey, name);
    ghost var cs := AppendSteps(boxes, rescale, frameIdx, currentKey, name);
    var hd, cd := h, c;
    var i := 0;
    while i < |boxes|
      invariant i <= |boxes|
      invariant RunPair(hd, cd, hs[i..], cs[i..]) == RunPair(h, c, hs, cs)
    {
      var entry := NamedDetectionEntry(rescale(boxes[i]), name);
      assert hs[i..][0] == Edit(LabelPath(frameIdx, "detectObj", historyKey), Append(entry));
      assert cs[i..][0] == Edit(LabelPath(frameIdx, "detectObj", currentKey), Append(entry));
      assert hs[i..][1..] == hs[i + 1..] && cs[i..][1..] == cs[i + 1..];
      var next := EditBoth(hd, cd, LabelPath(frameIdx, "detectObj", historyKey),
                           LabelPath(frameIdx, "detectObj", currentKey), Append(entry));
      if next.Err? {
        return Err(next.error);
      }
      hd, cd := next.value.0, next.value.1;
      i := i + 1;
    }
    return Ok((hd, cd));
  }

  /** The vanish-line and lane-info statements, shared by both builders. */
  method WriteLines(h: Json, c: Json, t: Toggles, res: AdasResults, frameIdx: int)
    returns (r: Result<(Json, Json), LogError>)
    ensures r == RunPair(h, c, LineSteps(t, res, frameIdx), LineSteps(t, res, frameIdx))
  {
    var h', c' := h, c;
    ghost var v, l := VanishSteps(t, res, frameIdx), LaneSteps(t, res, frameIdx);
    RunPairConcat(h, c, v, l, v, l);
    if t.saveVanishLine {
      var path := SectionPath(frameIdx, "vanishLineY");
      var next := EditBoth(h', c', path, path, Assign(VanishArray(res)));
      if next.Err? {
        return Err(next.error);
      }
      h', c' := next.value.0, next.value.1;
    }
    assert RunPair(h, c, v, v) == Ok((h', c'));
    if t.saveLaneInfo {
      var path := SectionPath(frameIdx, "LaneInfo");
      r := EditBoth(h', c', path, path, Assign(LaneArray(res)));
    } else {
      r := Ok((h', c'));
    }
  }

  /** The detection and tracking statements of `JsonLogString`. */
  method WriteObjects(h: Json, c: Json, t: Toggles, lists: seq<seq<Box>>, tracked: seq<TrackedObject>,
                      rescale: Box -> Box, frameIdx: int)
    returns (r: Result<(Json, Json), LogError>)
    ensures r == RunPair(h, c, ObjectSteps(t, lists, tracked, rescale, frameIdx), ObjectSteps(t, lists, tracked, rescale, frameIdx))
  {
    ghost var d := if t.saveDetObj then DetectionSection(lists, rescale, frameIdx) else [];
    ghost var k := if t.saveTrackObj then TrackSteps(tracked, rescale, frameIdx, false) else [];
    RunPairConcat(h, c, d, k, d, k);
    var h', c' := h, c;
    if t.saveDetObj {
      var next := WriteDetections(h, c, lists, rescale, frameIdx);
      if next.Err? {
        return Err(next.error);
      }
      h', c' := next.value.0, next.value.1;
    }
    assert RunPair(h, c, d, d) == Ok((h', c'));
    if t.saveTrackObj {
      r := WriteTracks(h', c', tracked, rescale, frameIdx, false);
    } else {
      r := Ok((h', c'));
    }
  }

  /** `JsonLogString`: the frame's log documents, or the error that stops the C++ builder. */
  method JsonLogString(t: Toggles, prior: Option<Json>, res: AdasResults, lists: seq<seq<Box>>,
                       tracked: seq<TrackedObject>, rescale: Box -> Box, frameIdx: int)
    returns (r: Result<LogDocs, LogError>)
    ensures r == JsonLogSpec(t, prior, res, lists, tracked, rescale, frameIdx)
  {
    var h := if t.saveToJsonFile && prior.Some? then prior.value else Null;
    var c := Null;
    ghost var vl := LineSteps(t, res, frameIdx);
    ghost var rest := ObjectSteps(t, lists, tracked, rescale, frameIdx);
    ghost var whole := RunPair(h, c, vl + rest, vl + rest);
    RunPairConcat(h, c, vl, rest, vl, rest);

    var lines := WriteLines(h, c, t, res, frameIdx);
    if lines.Err? {
      return Err(lines.error);
    }
    h, c := lines.value.0, lines.value.1;
    assert whole == RunPair(h, c, rest, rest);

    var objects := WriteObjects(h, c, t, lists, tracked, rescale, frameIdx);
    if objects.Err? {
      return Err(objects.error);
    }
    h, c := objects.value.0, objects.value.1;
    return Ok(LogDocs(c, if t.saveToJsonFile then Some(h) else None));
  }

  /** The four detection loops of `JsonLogString_2`, in source order. */
  method WriteAppendSection(h: Json, c: Json, humans: seq<Box>, riders: seq<Box>, vehicles: seq<Box>, stopSigns: seq<Box>,
                            rescale: Box -> Box, frameIdx: int)
    returns (r: Result<(Json, Json), LogError>)
    ensures r == RunPair(h, c, AppendSection(true, humans, riders, vehicles, stopSigns, rescale, frameIdx),
                         AppendSection(false, humans, riders, vehicles, stopSigns, rescale, frameIdx))
  {
    ghost var a1 := AppendSteps(vehicles, rescale, frameIdx, "VEHICLE", "VEHICLE");
    ghost var a2 := AppendSteps(humans, rescale, frameIdx, "HUMAN", "HUMAN");
    ghost var a3h := AppendSteps(riders, rescale, frameIdx, RiderKey(true), "SMALL_VEHICLE");
    ghost var a3c := AppendSteps(riders, rescale, frameIdx, RiderKey(false), "SMALL_VEHICLE");
    ghost var a4h := AppendSteps(stopSigns, rescale, frameIdx, StopSignKey(true), "STOP_SIGN");
    ghost var a4c := AppendSteps(stopSigns, rescale, frameIdx, StopSignKey(false), "STOP_SIGN");
    RunPairConcat(h, c, a1 + a2 + a3h, a4h, a1 + a2 + a3c, a4c);
    RunPairConcat(h, c, a1 + a2, a3h, a1 + a2, a3c);
    RunPairConcat(h, c, a1, a2, a1, a2);

    var r1 := AppendDetections(h, c, vehicles, rescale, frameIdx, "VEHICLE", "VEHICLE", "VEHICLE");
    if r1.Err? {
      return Err(r1.error);
    }
    var r2 := AppendDetections(r1.value.0, r1.value.1, humans, rescale, frameIdx, "HUMAN", "HUMAN", "HUMAN");
    if r2.Err? {
      return Err(r2.error);
    }
    var r3 := AppendDetections(r2.value.0, r2.value.1, riders, rescale, frameIdx, "SMALL VEHICLE", "SMALL_VEHICLE", "SMALL_VEHICLE");
    if r3.Err? {
      return Err(r3.error);
    }
    r := AppendDetections(r3.value.0, r3.value.1, stopSigns, rescale, frameIdx, "STOPSIGN", "STOP_SIGN", "STOP_SIGN");
  }

  /** The detection and tracking statements of `JsonLogString_2`, each behind its toggle. */
  method WriteObjects2(h: Json, c: Json, t: Toggles, humans: seq<Box>, riders: seq<Box>, vehicles: seq<Box>,
                       stopSigns: seq<Box>, tracked: seq<TrackedObject>, rescale: Box -> Box, frameIdx: int)
    returns (r: Result<(Json, Json), LogError>)
    ensures r == RunPair(h, c, ObjectSteps2(t, true, humans, riders, vehicles, stopSigns, tracked, rescale, frameIdx),
                         ObjectSteps2(t, false, humans, riders, vehicles, stopSigns, tracked, rescale, frameIdx))
  {
    ghost var dh := if t.saveDetObj then AppendSection(true, humans, riders, vehicles, stopSigns, rescale, frameIdx) else [];
    ghost var dc := if t.saveDetObj then AppendSection(false, humans, riders, vehicles, stopSigns, rescale, frameIdx) else [];
    ghost var k := if t.saveTrackObj then TrackSteps(tracked, rescale, frameIdx, true) else [];
    RunPairConcat(h, c, dh, k, dc, k);
    var h', c' := h, c;
    if t.saveDetObj {
      var next := WriteAppendSection(h, c, humans, riders, vehicles, stopSigns, rescale, frameIdx);
      if next.Err? {
        return Err(next.error);
      }
      h', c' := next.value.0, next.value.1;
    }
    assert RunPair(h, c, dh, dc) == Ok((h', c'));
    if t.saveTrackObj {
      r := WriteTracks(h', c', tracked, rescale, frameIdx, true);
    } else {
      r := Ok((h', c'));
    }
  }

  /** `JsonLogString_2`: the frame's log documents, or the error that stops the C++ builder. */
  method JsonLogString2(t: Toggles, prior: Option<Json>, res: AdasResults, humans: seq<Box>, riders: seq<Box>,
                        vehicles: seq<Box>, stopSigns: seq<Box>, tracked: seq<TrackedObject>,
                        rescale: Box -> Box, frameIdx: int)
    returns (r: Result<LogDocs, LogError>)
    ensures r == JsonLog2Spec(t, prior, res, humans, riders, vehicles, stopSigns, tracked, rescale, frameIdx)
  {
    var h := if t.saveToJsonFile && prior.Some? then prior.value else Null;
    var c := Null;
    ghost var a, vl := AdasSteps(t, res, frameIdx), LineSteps(t, res, frameIdx);
    ghost var hRest := ObjectSteps2(t, true, humans, riders, vehicles, stopSigns, tracked, rescale, frameIdx);
    ghost var cRest := ObjectSteps2(t, false, humans, riders, vehicles, stopSigns, tracked, rescale, frameIdx);
    ghost var whole := RunPair(h, c, a + (vl + hRest), a + (vl + cRest));
    RunPairConcat(h, c, a, vl + hRest, a, vl + cRest);

    var path := SectionPath(frameIdx, "ADAS");
    var first := EditBoth(h, c, path, path, Append(AdasEntry(t, res.eventType)));
    if first.Err? {
      return Err(first.error);
    }
    h, c := first.value.0, first.value.1;
    assert whole == RunPair(h, c, vl + hRest, vl + cRest);
    RunPairConcat(h, c, vl, hRest, vl, cRest);

    var lines := WriteLines(h, c, t, res, frameIdx);
    if lines.Err? {
      return Err(lines.error);
    }
    h, c := lines.value.0, lines.value.1;
    assert whole == RunPair(h, c, hRest, cRest);

    var rest := WriteObjects2(h, c, t, humans, riders, vehicles, stopSigns, tracked, rescale, frameIdx);
    if rest.Err? {
      return Err(rest.error);
    }
    h, c := rest.value.0, rest.value.1;
    return Ok(LogDocs(c, if t.saveToJsonFile then Some(h) else None));
  }

  // ---------------------------------------------------------------------------------------------
  // Reading a frame back

  /**
   * `GetJsonValueByKey` as written, on the parsed log file (`None` when it cannot be opened).
   * `jsonData["frame_ID"]` throws on a document that is neither null nor an object. When the frame
   * is present, its text goes into a second, inner `frameIDJsonString`, so the outer one, still
   * empty, is what comes back.
   */
  function GetJsonValueByKey(file: Option<Json>, targetFrameID: int): (r: Result<string, LogError>)
    ensures file.None? ==> r == Ok("FILE_OPEN_FAILED")
    ensures file.Some? ==> (r.Err? <==> !(file.value.Null? || file.value.Obj?))
    ensures file.Some? && r.Ok? ==> (r.value == "" <==> Get(file.value, ["frame_ID", IntToString(targetFrameID)]).Some?)
    ensures r.Ok? ==> r.value in {"FILE_OPEN_FAILED", "FRAME_ID_NOT_FOUND_ERROR", ""}
  {
    match file
    case None => Ok("FILE_OPEN_FAILED")
    case Some(d) =>
      if !(d.Null? || d.Obj?) then Err(TypeError)
      else if Get(d, ["frame_ID", IntToString(targetFrameID)]).Some? then Ok("")
      else Ok("FRAME_ID_NOT_FOUND_ERROR")
  }

  /** The outcome the lookup evidently intends: the two failure answers, or the frame's document. */
  datatype Lookup = FileOpenFailed | FrameIdNotFound | Found(frame: Json)

  /** `GetJsonValueByKey` with the shadowing removed: a present frame yields its document. */
  function FrameLookup(file: Option<Json>, targetFrameID: int): (r: Result<Lookup, LogError>)
    ensures file.None? ==> r == Ok(FileOpenFailed)
    ensures file.Some? ==> (r.Err? <==> !(file.value.Null? || file.value.Obj?))
    ensures r.Ok? && r.value.Found? ==> Get(file.value, ["frame_ID", IntToString(targetFrameID)]) == Some(r.value.frame)
    ensures file.Some? && r.Ok? && Get(file.value, ["frame_ID", IntToString(targetFrameID)]).Some? ==> r.value.Found?
  {
    match file
    case None => Ok(FileOpenFailed)
    case Some(d) =>
      if !(d.Null? || d.Obj?) then Err(TypeError)
      else
        match Get(d, ["frame_ID", IntToString(targetFrameID)])
        case Some(frame) => Ok(Found(frame))
        case None => Ok(FrameIdNotFound)
  }
}
