/**
 * What the two log builders guarantee about the documents they produce: where each section lands,
 * which entry survives when several boxes share a label, what accumulates in the history document,
 * what neither builder touches, and when a builder cannot finish.
 */
module JsonLogProps {
  import opened Basics
  import opened Decimal
  import opened JsonDoc
  import opened AdasTypes
  import opened JsonLog

  // ---------------------------------------------------------------------------------------------
  // Where the statements write

  /** Every edit among `steps` writes under `frame_ID` -> the frame's key -> one of `sections`. */
  ghost predicate Within(steps: seq<Step>, frameIdx: int, sections: set<string>)
  {
    forall s :: s in steps && s.Edit? ==>
      |s.path| >= 3 && s.path[0] == "frame_ID" && s.path[1] == IntToString(frameIdx) && s.path[2] in sections
  }

  lemma WithinConcat(a: seq<Step>, b: seq<Step>, frameIdx: int, sa: set<string>, sb: set<string>)
    requires Within(a, frameIdx, sa) && Within(b, frameIdx, sb)
    ensures Within(a + b, frameIdx, sa + sb)
  {
  }

  /** Edits within some sections of a frame part from every path into another frame or section. */
  lemma WithinDiverges(steps: seq<Step>, frameIdx: int, sections: set<string>, q: Path)
    requires Within(steps, frameIdx, sections)
    requires (|q| >= 2 && (q[0] != "frame_ID" || q[1] != IntToString(frameIdx))) || (|q| >= 3 && q[2] !in sections)
    ensures forall s :: s in steps && s.Edit? ==> Diverge(s.path, q)
  {
    forall s | s in steps && s.Edit? ensures Diverge(s.path, q) {
      if q[0] != "frame_ID" {
        DivergeAt(s.path, q, 0);
      } else if q[1] != IntToString(frameIdx) {
        DivergeAt(s.path, q, 1);
      } else {
        DivergeAt(s.path, q, 2);
      }
    }
  }

  lemma DetectionStepsWithin(boxes: seq<Box>, rescale: Box -> Box, frameIdx: int)
    ensures Within(DetectionSteps(boxes, rescale, frameIdx), frameIdx, {"detectObj"})
  {
    var steps := DetectionSteps(boxes, rescale, frameIdx);
    forall s | s in steps && s.Edit?
      ensures |s.path| >= 3 && s.path[0] == "frame_ID" && s.path[1] == IntToString(frameIdx) && s.path[2] == "detectObj"
    {
      var i :| 0 <= i < |steps| && steps[i] == s;
    }
  }

  lemma {:induction false} DetectionListWithin(lists: seq<seq<Box>>, j: nat, bound: nat, rescale: Box -> Box, frameIdx: int)
    ensures Within(DetectionListSteps(lists, j, bound, rescale, frameIdx), frameIdx, {"detectObj"})
    decreases bound - j
  {
    if j < bound && j < |lists| {
      DetectionStepsWithin(lists[j], rescale, frameIdx);
      DetectionListWithin(lists, j + 1, bound, rescale, frameIdx);
      WithinConcat(DetectionSteps(lists[j], rescale, frameIdx), DetectionListSteps(lists, j + 1, bound, rescale, frameIdx),
                   frameIdx, {"detectObj"}, {"detectObj"});
    }
  }

  lemma AppendStepsWithin(boxes: seq<Box>, rescale: Box -> Box, frameIdx: int, key: string, name: string)
    ensures Within(AppendSteps(boxes, rescale, frameIdx, key, name), frameIdx, {"detectObj"})
  {
    var steps := AppendSteps(boxes, rescale, frameIdx, key, name);
    forall s | s in steps && s.Edit?
      ensures |s.path| >= 3 && s.path[0] == "frame_ID" && s.path[1] == IntToString(frameIdx) && s.path[2] == "detectObj"
    {
      var i :| 0 <= i < |steps| && steps[i] == s;
    }
  }

  lemma {:induction false} TrackStepsWithin(objs: seq<TrackedObject>, rescale: Box -> Box, frameIdx: int, second: bool)
    ensures Within(TrackSteps(objs, rescale, frameIdx, second), frameIdx, {"trackObj"})
    decreases |objs|
  {
    if |objs| > 0 {
      TrackStepsWithin(objs[1..], rescale, frameIdx, second);
    }
  }

  /** The sections `JsonLogString` writes. */
  const SECTIONS: set<string> := {"vanishLineY", "LaneInfo", "detectObj", "trackObj"}

  /** The sections `JsonLogString_2` writes: the same, and `ADAS`. */
  const SECTIONS2: set<string> := SECTIONS + {"ADAS"}

  lemma ObjectStepsWithin(t: Toggles, lists: seq<seq<Box>>, tracked: seq<TrackedObject>, rescale: Box -> Box, frameIdx: int)
    ensures Within(ObjectSteps(t, lists, tracked, rescale, frameIdx), frameIdx, {"detectObj", "trackObj"})
  {
    if |lists| > 0 {
      DetectionListWithin(lists, 0, |lists[0]|, rescale, frameIdx);
    }
    TrackStepsWithin(tracked, rescale, frameIdx, false);
  }

  lemma ScriptWithin(t: Toggles, res: AdasResults, lists: seq<seq<Box>>, tracked: seq<TrackedObject>,
                     rescale: Box -> Box, frameIdx: int)
    ensures Within(Script(t, res, lists, tracked, rescale, frameIdx), frameIdx, SECTIONS)
  {
    ObjectStepsWithin(t, lists, tracked, rescale, frameIdx);
  }

  lemma AppendSectionWithin(forHistory: bool, humans: seq<Box>, riders: seq<Box>, vehicles: seq<Box>, stopSigns: seq<Box>,
                            rescale: Box -> Box, frameIdx: int)
    ensures Within(AppendSection(forHistory, humans, riders, vehicles, stopSigns, rescale, frameIdx), frameIdx, {"detectObj"})
  {
    AppendStepsWithin(vehicles, rescale, frameIdx, "VEHICLE", "VEHICLE");
    AppendStepsWithin(humans, rescale, frameIdx, "HUMAN", "HUMAN");
    AppendStepsWithin(riders, rescale, frameIdx, RiderKey(forHistory), "SMALL_VEHICLE");
    AppendStepsWithin(stopSigns, rescale, frameIdx, StopSignKey(forHistory), "STOP_SIGN");
  }

  lemma Script2Within(t: Toggles, forHistory: bool, res: AdasResults, humans: seq<Box>, riders: seq<Box>,
                      vehicles: seq<Box>, stopSigns: seq<Box>, tracked: seq<TrackedObject>,
                      rescale: Box -> Box, frameIdx: int)
    ensures Within(Script2(t, forHistory, res, humans, riders, vehicles, stopSigns, tracked, rescale, frameIdx), frameIdx, SECTIONS2)
  {
    var adas := AdasSteps(t, res, frameIdx);
    var lines := LineSteps(t, res, frameIdx);
    var dets := if t.saveDetObj then AppendSection(forHistory, humans, riders, vehicles, stopSigns, rescale, frameIdx) else [];
    var tracks := if t.saveTrackObj then TrackSteps(tracked, rescale, frameIdx, true) else [];
    AppendSectionWithin(forHistory, humans, riders, vehicles, stopSigns, rescale, frameIdx);
    TrackStepsWithin(tracked, rescale, frameIdx, true);
    WithinConcat(dets, tracks, frameIdx, {"detectObj"}, {"trackObj"});
    assert Within(lines, frameIdx, {"vanishLineY", "LaneInfo"});
    WithinConcat(lines, dets + tracks, frameIdx, {"vanishLineY", "LaneInfo"}, {"detectObj", "trackObj"});
    assert Within(adas, frameIdx, {"ADAS"});
    WithinConcat(adas, lines + (dets + tracks), frameIdx, {"ADAS"}, SECTIONS);
  }

  // ---------------------------------------------------------------------------------------------
  // From the lockstep run to the two documents

  /** What a successful `JsonLogString` returns is the run of its statements on each document. */
  lemma SpecDocs(t: Toggles, prior: Option<Json>, hs: seq<Step>, cs: seq<Step>, docs: LogDocs)
    requires |hs| == |cs| && Finish(t, RunPair(HistoryStart(t, prior), Null, hs, cs)) == Ok(docs)
    ensures Run(Null, cs).Ok? && docs.current == Run(Null, cs).value
    ensures Run(HistoryStart(t, prior), hs).Ok?
    ensures docs.saved.Some? <==> t.saveToJsonFile
    ensures docs.saved.Some? ==> docs.saved.value == Run(HistoryStart(t, prior), hs).value
  {
    RunPairBoth(HistoryStart(t, prior), Null, hs, cs);
  }

  // ---------------------------------------------------------------------------------------------
  // Nothing outside the frame changes

  /**
   * `JsonLogString` writes only under its own frame: the current-frame document holds nothing
   * else, and everything else in the history document is as the log file had it.
   */
  lemma OtherFramesUntouched(t: Toggles, prior: Option<Json>, res: AdasResults, lists: seq<seq<Box>>,
                             tracked: seq<TrackedObject>, rescale: Box -> Box, frameIdx: int, docs: LogDocs, q: Path)
    requires JsonLogSpec(t, prior, res, lists, tracked, rescale, frameIdx) == Ok(docs)
    requires |q| >= 2 && (q[0] != "frame_ID" || q[1] != IntToString(frameIdx))
    ensures Get(docs.current, q) == None
    ensures docs.saved.Some? ==> Get(docs.saved.value, q) == Get(HistoryStart(t, prior), q)
  {
    var s := Script(t, res, lists, tracked, rescale, frameIdx);
    SpecDocs(t, prior, s, s, docs);
    ScriptWithin(t, res, lists, tracked, rescale, frameIdx);
    WithinDiverges(s, frameIdx, SECTIONS, q);
    RunBeside(Null, s, q);
    RunBeside(HistoryStart(t, prior), s, q);
  }

  /** The same for `JsonLogString_2`. */
  lemma OtherFramesUntouched2(t: Toggles, prior: Option<Json>, res: AdasResults, humans: seq<Box>, riders: seq<Box>,
                              vehicles: seq<Box>, stopSigns: seq<Box>, tracked: seq<TrackedObject>,
                              rescale: Box -> Box, frameIdx: int, docs: LogDocs, q: Path)
    requires JsonLog2Spec(t, prior, res, humans, riders, vehicles, stopSigns, tracked, rescale, frameIdx) == Ok(docs)
    requires |q| >= 2 && (q[0] != "frame_ID" || q[1] != IntToString(frameIdx))
    ensures Get(docs.current, q) == None
    ensures docs.saved.Some? ==> Get(docs.saved.value, q) == Get(HistoryStart(t, prior), q)
  {
    var hs := Script2(t, true, res, humans, riders, vehicles, stopSigns, tracked, rescale, frameIdx);
    var cs := Script2(t, false, res, humans, riders, vehicles, stopSigns, tracked, rescale, frameIdx);
    SpecDocs(t, prior, hs, cs, docs);
    Script2Within(t, true, res, humans, riders, vehicles, stopSigns, tracked, rescale, frameIdx);
    Script2Within(t, false, res, humans, riders, vehicles, stopSigns, tracked, rescale, frameIdx);
    WithinDiverges(hs, frameIdx, SECTIONS2, q);
    WithinDiverges(cs, frameIdx, SECTIONS2, q);
    RunBeside(Null, cs, q);
    RunBeside(HistoryStart(t, prior), hs, q);
  }

  /** In particular, the entries of every earlier frame in the log file survive the rewrite. */
  lemma EarlierFramesKept(t: Toggles, prior: Option<Json>, res: AdasResults, lists: seq<seq<Box>>,
                          tracked: seq<TrackedObject>, rescale: Box -> Box, frameIdx: int, docs: LogDocs,
                          earlier: int, rest: Path)
    requires JsonLogSpec(t, prior, res, lists, tracked, rescale, frameIdx) == Ok(docs)
    requires earlier != frameIdx && prior.Some? && docs.saved.Some?
    ensures Get(docs.saved.value, ["frame_ID", IntToString(earlier)] + rest) == Get(prior.value, ["frame_ID", IntToString(earlier)] + rest)
  {
    IntToStringInjective(earlier, frameIdx);
    OtherFramesUntouched(t, prior, res, lists, tracked, rescale, frameIdx, docs, ["frame_ID", IntToString(earlier)] + rest);
  }

  // ---------------------------------------------------------------------------------------------
  // The vanish line and the lane

  /** An assignment to a section of the frame that no other statement writes stays there. */
  lemma SoleAssign(d: Json, pre: seq<Step>, post: seq<Step>, p: Path, v: Json, frameIdx: int, sections: set<string>)
    requires Within(pre, frameIdx, sections) && Within(post, frameIdx, sections)
    requires |p| == 3 && p[0] == "frame_ID" && p[1] == IntToString(frameIdx) && p[2] !in sections
    requires Run(d, pre + ([Edit(p, Assign(v))] + post)).Ok?
    ensures Get(Run(d, pre + ([Edit(p, Assign(v))] + post)).value, p) == Some(v)
  {
    var steps := pre + ([Edit(p, Assign(v))] + post);
    WithinDiverges(pre, frameIdx, sections, p);
    WithinDiverges(post, frameIdx, sections, p);
    assert forall x :: x in steps ==> x in pre || x == Edit(p, Assign(v)) || x in post;
    forall j | |pre| < j < |steps| ensures !(steps[j].Edit? && steps[j].path == p) {
      assert steps[j] == post[j - |pre| - 1];
    }
    RunLastAssign(d, steps, p, |pre|);
  }

  /** A section of the frame that no statement writes keeps what the document had there. */
  lemma Unwritten(d: Json, steps: seq<Step>, q: Path, frameIdx: int, sections: set<string>)
    requires Within(steps, frameIdx, sections)
    requires |q| >= 3 && q[2] !in sections
    requires Run(d, steps).Ok?
    ensures Get(Run(d, steps).value, q) == Get(d, q)
  {
    WithinDiverges(steps, frameIdx, sections, q);
    RunBeside(d, steps, q);
  }

  /** The vanish-line and lane statements, followed by statements for other sections. */
  lemma LinesInRun(d: Json, t: Toggles, res: AdasResults, rest: seq<Step>, frameIdx: int, sections: set<string>)
    requires Within(rest, frameIdx, sections) && "vanishLineY" !in sections && "LaneInfo" !in sections
    requires Run(d, LineSteps(t, res, frameIdx) + rest).Ok?
    ensures Get(Run(d, LineSteps(t, res, frameIdx) + rest).value, SectionPath(frameIdx, "vanishLineY"))
      == if t.saveVanishLine then Some(VanishArray(res)) else Get(d, SectionPath(frameIdx, "vanishLineY"))
    ensures Get(Run(d, LineSteps(t, res, frameIdx) + rest).value, SectionPath(frameIdx, "LaneInfo"))
      == if t.saveLaneInfo then Some(LaneArray(res)) else Get(d, SectionPath(frameIdx, "LaneInfo"))
  {
    var s := LineSteps(t, res, frameIdx) + rest;
    var v, l := VanishSteps(t, res, frameIdx), LaneSteps(t, res, frameIdx);
    var vp, lp := SectionPath(frameIdx, "vanishLineY"), SectionPath(frameIdx, "LaneInfo");
    var noVanish := sections + {"LaneInfo"};
    var noLane := sections + {"vanishLineY"};
    assert Within(l + rest, frameIdx, noVanish);
    assert Within(v, frameIdx, noLane) && Within(rest, frameIdx, noLane);
    if t.saveVanishLine {
      assert s == [] + ([Edit(vp, Assign(VanishArray(res)))] + (l + rest));
      SoleAssign(d, [], l + rest, vp, VanishArray(res), frameIdx, noVanish);
    } else {
      assert s == l + rest;
      Unwritten(d, s, vp, frameIdx, noVanish);
    }
    if t.saveLaneInfo {
      assert s == v + ([Edit(lp, Assign(LaneArray(res)))] + rest);
      SoleAssign(d, v, rest, lp, LaneArray(res), frameIdx, noLane);
    } else {
      assert s == v + rest;
      Unwritten(d, s, lp, frameIdx, noLane);
    }
  }

  /**
   * `JsonLogString` leaves the vanish line and the lane geometry of the results in their sections
   * of both documents when their switches are on; with a switch off the current-frame document
   * has no such section and the history keeps what it had.
   */
  lemma LinesLogged(t: Toggles, prior: Option<Json>, res: AdasResults, lists: seq<seq<Box>>,
                    tracked: seq<TrackedObject>, rescale: Box -> Box, frameIdx: int, docs: LogDocs)
    requires JsonLogSpec(t, prior, res, lists, tracked, rescale, frameIdx) == Ok(docs)
    ensures Get(docs.current, SectionPath(frameIdx, "vanishLineY")) == if t.saveVanishLine then Some(VanishArray(res)) else None
    ensures Get(docs.current, SectionPath(frameIdx, "LaneInfo")) == if t.saveLaneInfo then Some(LaneArray(res)) else None
    ensures docs.saved.Some? ==>
      (Get(docs.saved.value, SectionPath(frameIdx, "vanishLineY"))
       == if t.saveVanishLine then Some(VanishArray(res)) else Get(HistoryStart(t, prior), SectionPath(frameIdx, "vanishLineY")))
    ensures docs.saved.Some? ==>
      (Get(docs.saved.value, SectionPath(frameIdx, "LaneInfo"))
       == if t.saveLaneInfo then Some(LaneArray(res)) else Get(HistoryStart(t, prior), SectionPath(frameIdx, "LaneInfo")))
  {
    var s := Script(t, res, lists, tracked, rescale, frameIdx);
    var objects := ObjectSteps(t, lists, tracked, rescale, frameIdx);
    SpecDocs(t, prior, s, s, docs);
    ObjectStepsWithin(t, lists, tracked, rescale, frameIdx);
    LinesInRun(Null, t, res, objects, frameIdx, {"detectObj", "trackObj"});
    LinesInRun(HistoryStart(t, prior), t, res, objects, frameIdx, {"detectObj", "trackObj"});
  }

  // ---------------------------------------------------------------------------------------------
  // Detections in `JsonLogString`

  /** The boxes the detection loop visits: lists `j` up to `bound`, in order. */
  function Visited(lists: seq<seq<Box>>, j: nat, bound: nat): seq<Box>
    requires bound <= |lists|
    decreases bound - j
  {
    if j >= bound then [] else lists[j] + Visited(lists, j + 1, bound)
  }

  lemma DetectionStepsConcat(a: seq<Box>, b: seq<Box>, rescale: Box -> Box, frameIdx: int)
    ensures DetectionSteps(a + b, rescale, frameIdx) == DetectionSteps(a, rescale, frameIdx) + DetectionSteps(b, rescale, frameIdx)
  {
  }

  /** Within the array's bounds, the nested loops write one step per visited box. */
  lemma {:induction false} DetectionListVisits(lists: seq<seq<Box>>, j: nat, bound: nat, rescale: Box -> Box, frameIdx: int)
    requires bound <= |lists|
    ensures DetectionListSteps(lists, j, bound, rescale, frameIdx) == DetectionSteps(Visited(lists, j, bound), rescale, frameIdx)
    decreases bound - j
  {
    if j < bound {
      DetectionListVisits(lists, j + 1, bound, rescale, frameIdx);
      DetectionStepsConcat(lists[j], Visited(lists, j + 1, bound), rescale, frameIdx);
    }
  }

  lemma {:induction false} VisitedContains(lists: seq<seq<Box>>, j: nat, bound: nat)
    requires bound <= |lists|
    ensures forall k, i :: j <= k < bound && 0 <= i < |lists[k]| ==> lists[k][i] in Visited(lists, j, bound)
    decreases bound - j
  {
    if j < bound {
      VisitedContains(lists, j + 1, bound);
    }
  }

  /**
   * Bounded by the number of lists, the detection loops never read past the array and write one
   * step for every box of every list, in order.
   */
  lemma IntendedDetectionsVisitAll(lists: seq<seq<Box>>, rescale: Box -> Box, frameIdx: int)
    ensures IntendedDetectionSection(lists, rescale, frameIdx) == DetectionSteps(Visited(lists, 0, |lists|), rescale, frameIdx)
    ensures Undefined !in IntendedDetectionSection(lists, rescale, frameIdx)
    ensures forall k, i :: 0 <= k < |lists| && 0 <= i < |lists[k]| ==> lists[k][i] in Visited(lists, 0, |lists|)
  {
    DetectionListVisits(lists, 0, |lists|, rescale, frameIdx);
    VisitedContains(lists, 0, |lists|);
  }

  /**
   * The five lists `run` passes, with one vehicle and nothing else: the loop as written runs zero
   * times (the first list is empty) and logs nothing; bounded by the number of lists it logs the
   * vehicle.
   */
  lemma LoneVehicleNotLogged(v: Box, rescale: Box -> Box, frameIdx: int)
    ensures DetectionSection([[], [], [v], [], []], rescale, frameIdx) == []
    ensures IntendedDetectionSection([[], [], [v], [], []], rescale, frameIdx) == [DetectionStep(v, rescale, frameIdx)]
  {
    var lists: seq<seq<Box>> := [[], [], [v], [], []];
    IntendedDetectionsVisitAll(lists, rescale, frameIdx);
    assert Visited(lists, 5, 5) == [];
    assert Visited(lists, 4, 5) == [];
    assert Visited(lists, 3, 5) == [];
    assert Visited(lists, 2, 5) == [v];
    assert Visited(lists, 0, 5) == [v];
  }

  /**
   * Among statements that each write one label's slot of a section (and statements for other
   * sections around them), the last assignment to a label decides that label's slot.
   */
  lemma LabelledLastWins(d: Json, pre: seq<Step>, mid: seq<Step>, post: seq<Step>, frameIdx: int, section: string,
                         sections: set<string>, i: nat)
    requires Within(pre, frameIdx, sections) && Within(post, frameIdx, sections) && section !in sections
    requires forall j :: 0 <= j < |mid| ==> mid[j].Edit? && |mid[j].path| == 4 && mid[j].path == LabelPath(frameIdx, section, mid[j].path[3])
    requires i < |mid| && mid[i].op.Assign?
    requires forall j :: i < j < |mid| ==> mid[j].path[3] != mid[i].path[3]
    requires Run(d, pre + (mid + post)).Ok?
    ensures Get(Run(d, pre + (mid + post)).value, mid[i].path) == Some(mid[i].op.v)
  {
    var steps := pre + (mid + post);
    var p := mid[i].path;
    WithinDiverges(pre, frameIdx, sections, p);
    WithinDiverges(post, frameIdx, sections, p);
    forall x | x in mid ensures x.Edit? && (x.path == p || Diverge(x.path, p)) {
      var j :| 0 <= j < |mid| && mid[j] == x;
      if x.path != p {
        DivergeAt(x.path, p, 3);
      }
    }
    assert forall x :: x in steps ==> x in pre || x in mid || x in post;
    var at := |pre| + i;
    assert steps[at] == mid[i];
    forall j | at < j < |steps| ensures !(steps[j].Edit? && steps[j].path == p) {
      if j < |pre| + |mid| {
        assert steps[j] == mid[j - |pre|];
      } else {
        assert steps[j] == post[j - |pre| - |mid|];
      }
    }
    RunLastAssign(d, steps, p, at);
  }

  /** The boxes `JsonLogString`'s detection loops visit when the first list fits the array. */
  function VisitedBoxes(lists: seq<seq<Box>>): seq<Box>
    requires |lists| > 0 && |lists[0]| <= |lists|
  {
    Visited(lists, 0, |lists[0]|)
  }

  /** With the detection switch on and the first list fitting the array, the script's detection part. */
  lemma ScriptDetections(t: Toggles, res: AdasResults, lists: seq<seq<Box>>, tracked: seq<TrackedObject>,
                         rescale: Box -> Box, frameIdx: int)
    requires t.saveDetObj && |lists| > 0 && |lists[0]| <= |lists|
    ensures Script(t, res, lists, tracked, rescale, frameIdx)
      == LineSteps(t, res, frameIdx) + (DetectionSteps(VisitedBoxes(lists), rescale, frameIdx)
         + if t.saveTrackObj then TrackSteps(tracked, rescale, frameIdx, false) else [])
  {
    DetectionListVisits(lists, 0, |lists[0]|, rescale, frameIdx);
  }

  /** Each detection statement writes one label's slot of `detectObj`. */
  lemma DetectionStepsShape(boxes: seq<Box>, rescale: Box -> Box, frameIdx: int)
    ensures forall j :: 0 <= j < |boxes| ==>
      var step := DetectionSteps(boxes, rescale, frameIdx)[j];
      step.Edit? && |step.path| == 4 && step.path == LabelPath(frameIdx, "detectObj", step.path[3])
  {
    var dets := DetectionSteps(boxes, rescale, frameIdx);
    forall j | 0 <= j < |boxes|
      ensures dets[j].Edit? && |dets[j].path| == 4 && dets[j].path == LabelPath(frameIdx, "detectObj", dets[j].path[3])
    {
      assert dets[j].path == LabelPath(frameIdx, "detectObj", DetectionLabel(rescale(boxes[j]).classId));
    }
  }

  /** Around the detection statements, the script writes only the line and tracking sections. */
  lemma DetectionsSurroundings(t: Toggles, res: AdasResults, tracked: seq<TrackedObject>, rescale: Box -> Box, frameIdx: int)
    ensures Within(LineSteps(t, res, frameIdx), frameIdx, {"vanishLineY", "LaneInfo", "trackObj"})
    ensures Within(if t.saveTrackObj then TrackSteps(tracked, rescale, frameIdx, false) else [], frameIdx,
                   {"vanishLineY", "LaneInfo", "trackObj"})
  {
    TrackStepsWithin(tracked, rescale, frameIdx, false);
  }

  /** The statement for box `i` assigns its entry to its label's slot, which no later box with another label writes. */
  lemma DetectionStepAt(boxes: seq<Box>, rescale: Box -> Box, frameIdx: int, i: nat)
    requires i < |boxes|
    requires forall j :: i < j < |boxes| ==>
      DetectionLabel(rescale(boxes[j]).classId) != DetectionLabel(rescale(boxes[i]).classId)
    ensures var dets := DetectionSteps(boxes, rescale, frameIdx);
      dets[i] == Edit(LabelPath(frameIdx, "detectObj", DetectionLabel(rescale(boxes[i]).classId)),
                      Assign(Arr([DetectionEntry(rescale(boxes[i]))]))) &&
      forall j :: i < j < |dets| ==> dets[j].path[3] != dets[i].path[3]
  {
    var dets := DetectionSteps(boxes, rescale, frameIdx);
    forall j | i < j < |dets| ensures dets[j].path[3] != dets[i].path[3] {
      assert dets[j].path == LabelPath(frameIdx, "detectObj", DetectionLabel(rescale(boxes[j]).classId));
    }
  }

  /** `DetectionLastWins` for one document the script runs on. */
  lemma DetectionLastWinsIn(d: Json, t: Toggles, res: AdasResults, lists: seq<seq<Box>>,
                            tracked: seq<TrackedObject>, rescale: Box -> Box, frameIdx: int, i: nat)
    requires t.saveDetObj && |lists| > 0 && |lists[0]| <= |lists|
    requires Run(d, Script(t, res, lists, tracked, rescale, frameIdx)).Ok?
    requires i < |VisitedBoxes(lists)|
    requires forall j :: i < j < |VisitedBoxes(lists)| ==>
      DetectionLabel(rescale(VisitedBoxes(lists)[j]).classId) != DetectionLabel(rescale(VisitedBoxes(lists)[i]).classId)
    ensures Get(Run(d, Script(t, res, lists, tracked, rescale, frameIdx)).value,
                LabelPath(frameIdx, "detectObj", DetectionLabel(rescale(VisitedBoxes(lists)[i]).classId)))
      == Some(Arr([DetectionEntry(rescale(VisitedBoxes(lists)[i]))]))
  {
    var vis := VisitedBoxes(lists);
    var lines := LineSteps(t, res, frameIdx);
    var tracks := if t.saveTrackObj then TrackSteps(tracked, rescale, frameIdx, false) else [];
    var dets := DetectionSteps(vis, rescale, frameIdx);
    ScriptDetections(t, res, lists, tracked, rescale, frameIdx);
    DetectionsSurroundings(t, res, tracked, rescale, frameIdx);
    DetectionStepsShape(vis, rescale, frameIdx);
    DetectionStepAt(vis, rescale, frameIdx, i);
    LabelledLastWins(d, lines, dets, tracks, frameIdx, "detectObj", {"vanishLineY", "LaneInfo", "trackObj"}, i);
  }

  /**
   * Each box replaces its label's slot, so the slot of a label holds the entry of the last box
   * the loops visit with that label (boxes are rescaled before labelling), in both documents.
   */
  lemma DetectionLastWins(t: Toggles, prior: Option<Json>, res: AdasResults, lists: seq<seq<Box>>,
                          tracked: seq<TrackedObject>, rescale: Box -> Box, frameIdx: int, docs: LogDocs, i: nat)
    requires JsonLogSpec(t, prior, res, lists, tracked, rescale, frameIdx) == Ok(docs) && t.saveDetObj
    requires |lists| > 0 && |lists[0]| <= |lists|
    requires i < |VisitedBoxes(lists)|
    requires forall j :: i < j < |VisitedBoxes(lists)| ==>
      DetectionLabel(rescale(VisitedBoxes(lists)[j]).classId) != DetectionLabel(rescale(VisitedBoxes(lists)[i]).classId)
    ensures Get(docs.current, LabelPath(frameIdx, "detectObj", DetectionLabel(rescale(VisitedBoxes(lists)[i]).classId)))
      == Some(Arr([DetectionEntry(rescale(VisitedBoxes(lists)[i]))]))
    ensures docs.saved.Some? ==>
      Get(docs.saved.value, LabelPath(frameIdx, "detectObj", DetectionLabel(rescale(VisitedBoxes(lists)[i]).classId)))
      == Some(Arr([DetectionEntry(rescale(VisitedBoxes(lists)[i]))]))
  {
    var vis := VisitedBoxes(lists);
    var s := Script(t, res, lists, tracked, rescale, frameIdx);
    SpecDocs(t, prior, s, s, docs);
    DetectionLastWinsIn(Null, t, res, lists, tracked, rescale, frameIdx, i);
    DetectionLastWinsIn(HistoryStart(t, prior), t, res, lists, tracked, rescale, frameIdx, i);
  }

  /** With an empty first list the script writes only the line and tracking sections. */
  lemma NoHumansScript(t: Toggles, res: AdasResults, lists: seq<seq<Box>>, tracked: seq<TrackedObject>,
                       rescale: Box -> Box, frameIdx: int)
    requires |lists| > 0 && |lists[0]| == 0
    ensures Within(Script(t, res, lists, tracked, rescale, frameIdx), frameIdx, {"vanishLineY", "LaneInfo", "trackObj"})
  {
    var tracks := if t.saveTrackObj then TrackSteps(tracked, rescale, frameIdx, false) else [];
    assert DetectionSection(lists, rescale, frameIdx) == [];
    assert Script(t, res, lists, tracked, rescale, frameIdx) == LineSteps(t, res, frameIdx) + tracks;
    TrackStepsWithin(tracked, rescale, frameIdx, false);
    WithinConcat(LineSteps(t, res, frameIdx), tracks, frameIdx, {"vanishLineY", "LaneInfo"}, {"trackObj"});
  }

  /** With an empty first list the outer loop never runs: the frame gets no `detectObj` section. */
  lemma NoHumansNoDetections(t: Toggles, prior: Option<Json>, res: AdasResults, lists: seq<seq<Box>>,
                             tracked: seq<TrackedObject>, rescale: Box -> Box, frameIdx: int, docs: LogDocs)
    requires JsonLogSpec(t, prior, res, lists, tracked, rescale, frameIdx) == Ok(docs)
    requires |lists| > 0 && |lists[0]| == 0
    ensures Get(docs.current, SectionPath(frameIdx, "detectObj")) == None
    ensures docs.saved.Some? ==> Get(docs.saved.value, SectionPath(frameIdx, "detectObj")) == Get(HistoryStart(t, prior), SectionPath(frameIdx, "detectObj"))
  {
    var s := Script(t, res, lists, tracked, rescale, frameIdx);
    var q := SectionPath(frameIdx, "detectObj");
    NoHumansScript(t, res, lists, tracked, rescale, frameIdx);
    SpecDocs(t, prior, s, s, docs);
    WithinDiverges(s, frameIdx, {"vanishLineY", "LaneInfo", "trackObj"}, q);
    RunBeside(Null, s, q);
    RunBeside(HistoryStart(t, prior), s, q);
  }

  /**
   * The outer loop runs over as many lists as the first list has boxes; when that is more than
   * the lists passed (or none is passed), the loop reads past the array and the builder cannot
   * finish.
   */
  lemma DetectionOverrunFails(t: Toggles, prior: Option<Json>, res: AdasResults, lists: seq<seq<Box>>,
                              tracked: seq<TrackedObject>, rescale: Box -> Box, frameIdx: int)
    requires t.saveDetObj && (|lists| == 0 || |lists[0]| > |lists|)
    ensures JsonLogSpec(t, prior, res, lists, tracked, rescale, frameIdx).Err?
  {
    var s := Script(t, res, lists, tracked, rescale, frameIdx);
    assert Undefined in DetectionSection(lists, rescale, frameIdx) by {
      if |lists| > 0 {
        UndefinedPastEnd(lists, 0, |lists[0]|, rescale, frameIdx);
      }
    }
    assert Undefined in s;
    RunUndefined(Null, s);
    RunPairBoth(HistoryStart(t, prior), Null, s, s);
  }

  lemma {:induction false} UndefinedPastEnd(lists: seq<seq<Box>>, j: nat, bound: nat, rescale: Box -> Box, frameIdx: int)
    requires j <= |lists| < bound
    ensures Undefined in DetectionListSteps(lists, j, bound, rescale, frameIdx)
    decreases bound - j
  {
    if j < |lists| {
      UndefinedPastEnd(lists, j + 1, bound, rescale, frameIdx);
    }
  }

  // ---------------------------------------------------------------------------------------------
  // Tracked objects

  /** The tracked objects the tracking loops log: those with a box history, in order. */
  function Logged(objs: seq<TrackedObject>): (r: seq<TrackedObject>)
    ensures forall j :: 0 <= j < |r| ==> |r[j].bboxList| > 0 && r[j] in objs
    ensures (forall o :: o in objs ==> |o.bboxList| > 0) ==> r == objs
    decreases |objs|
  {
    if |objs| == 0 then []
    else (if |objs[0].bboxList| == 0 then [] else [objs[0]]) + Logged(objs[1..])
  }

  function LastBox(o: TrackedObject): Box
    requires |o.bboxList| > 0
  {
    o.bboxList[|o.bboxList| - 1]
  }

  /** The tracking loops write one statement per logged object; the others leave no trace. */
  lemma {:induction false} TrackStepsLogged(objs: seq<TrackedObject>, rescale: Box -> Box, frameIdx: int, second: bool)
    ensures |TrackSteps(objs, rescale, frameIdx, second)| == |Logged(objs)|
    ensures forall j :: 0 <= j < |Logged(objs)| ==>
      TrackSteps(objs, rescale, frameIdx, second)[j] == TrackStep(Logged(objs)[j], rescale, frameIdx, second)
    decreases |objs|
  {
    if |objs| > 0 {
      var rest, logged := TrackSteps(objs[1..], rescale, frameIdx, second), Logged(objs[1..]);
      TrackStepsLogged(objs[1..], rescale, frameIdx, second);
      if |objs[0].bboxList| > 0 {
        assert TrackSteps(objs, rescale, frameIdx, second) == [TrackStep(objs[0], rescale, frameIdx, second)] + rest;
        assert Logged(objs) == [objs[0]] + logged;
        TrackStepsCons(objs[0], logged, rest, rescale, frameIdx, second);
      } else {
        assert TrackSteps(objs, rescale, frameIdx, second) == rest;
        assert Logged(objs) == logged;
      }
    }
  }

  /** One more logged object in front puts its statement in front. */
  lemma TrackStepsCons(o: TrackedObject, logged: seq<TrackedObject>, rest: seq<Step>, rescale: Box -> Box,
                       frameIdx: int, second: bool)
    requires |o.bboxList| > 0 && |rest| == |logged|
    requires forall j :: 0 <= j < |logged| ==> |logged[j].bboxList| > 0
    requires forall j :: 0 <= j < |logged| ==> rest[j] == TrackStep(logged[j], rescale, frameIdx, second)
    ensures forall j :: 0 <= j < |logged| + 1 ==>
      ([TrackStep(o, rescale, frameIdx, second)] + rest)[j] == TrackStep(([o] + logged)[j], rescale, frameIdx, second)
  {
    forall j | 0 <= j < |logged| + 1
      ensures ([TrackStep(o, rescale, frameIdx, second)] + rest)[j] == TrackStep(([o] + logged)[j], rescale, frameIdx, second)
    {
      if j > 0 {
        assert ([TrackStep(o, rescale, frameIdx, second)] + rest)[j] == rest[j - 1];
        assert ([o] + logged)[j] == logged[j - 1];
      }
    }
  }

  /** Each tracking statement writes one label's slot of `trackObj`; the i-th is the i-th logged object's. */
  lemma TrackStepsShape(tracked: seq<TrackedObject>, rescale: Box -> Box, frameIdx: int, second: bool)
    ensures |TrackSteps(tracked, rescale, frameIdx, second)| == |Logged(tracked)|
    ensures forall j :: 0 <= j < |Logged(tracked)| ==>
      var step := TrackSteps(tracked, rescale, frameIdx, second)[j];
      step.Edit? && |step.path| == 4 && step.path == LabelPath(frameIdx, "trackObj", step.path[3])
  {
    TrackStepsLogged(tracked, rescale, frameIdx, second);
    var steps := TrackSteps(tracked, rescale, frameIdx, second);
    forall j | 0 <= j < |Logged(tracked)|
      ensures steps[j].Edit? && |steps[j].path| == 4 && steps[j].path == LabelPath(frameIdx, "trackObj", steps[j].path[3])
    {
      var o := Logged(tracked)[j];
      assert steps[j].path == LabelPath(frameIdx, "trackObj", TrackingLabel(LastBox(o).classId));
    }
  }

  /** The statements `JsonLogString` runs before its tracking part write other sections. */
  lemma BeforeTracksWithin(t: Toggles, res: AdasResults, lists: seq<seq<Box>>, rescale: Box -> Box, frameIdx: int)
    ensures Within(LineSteps(t, res, frameIdx) + (if t.saveDetObj then DetectionSection(lists, rescale, frameIdx) else []),
                   frameIdx, {"vanishLineY", "LaneInfo", "detectObj"})
  {
    var lines := LineSteps(t, res, frameIdx);
    var dets := if t.saveDetObj then DetectionSection(lists, rescale, frameIdx) else [];
    if |lists| > 0 {
      DetectionListWithin(lists, 0, |lists[0]|, rescale, frameIdx);
    }
    assert Within(dets, frameIdx, {"detectObj"});
    assert Within(lines, frameIdx, {"vanishLineY", "LaneInfo"});
    WithinConcat(lines, dets, frameIdx, {"vanishLineY", "LaneInfo"}, {"detectObj"});
  }

  /** `JsonLogString`'s statements: the tracking part last. */
  lemma ScriptTracks(t: Toggles, res: AdasResults, lists: seq<seq<Box>>, tracked: seq<TrackedObject>,
                     rescale: Box -> Box, frameIdx: int)
    requires t.saveTrackObj
    ensures Script(t, res, lists, tracked, rescale, frameIdx)
      == (LineSteps(t, res, frameIdx) + (if t.saveDetObj then DetectionSection(lists, rescale, frameIdx) else []))
         + (TrackSteps(tracked, rescale, frameIdx, false) + [])
  {
    var lines := LineSteps(t, res, frameIdx);
    var dets := if t.saveDetObj then DetectionSection(lists, rescale, frameIdx) else [];
    var tracks := TrackSteps(tracked, rescale, frameIdx, false);
    assert ObjectSteps(t, lists, tracked, rescale, frameIdx) == dets + tracks;
    assert Script(t, res, lists, tracked, rescale, frameIdx) == lines + (dets + tracks);
    assert lines + (dets + tracks) == (lines + dets) + tracks;
    assert tracks + [] == tracks;
  }

  /**
   * Each logged object replaces the slot of its label (taken from its last box), so the slot holds
   * the entry of the last logged object with that label, built from its rescaled last box.
   */
  lemma TrackLastWins(t: Toggles, prior: Option<Json>, res: AdasResults, lists: seq<seq<Box>>,
                      tracked: seq<TrackedObject>, rescale: Box -> Box, frameIdx: int, docs: LogDocs, i: nat)
    requires JsonLogSpec(t, prior, res, lists, tracked, rescale, frameIdx) == Ok(docs) && t.saveTrackObj
    requires i < |Logged(tracked)|
    requires forall j :: i < j < |Logged(tracked)| ==>
      TrackingLabel(LastBox(Logged(tracked)[j]).classId) != TrackingLabel(LastBox(Logged(tracked)[i]).classId)
    ensures Get(docs.current, LabelPath(frameIdx, "trackObj", TrackingLabel(LastBox(Logged(tracked)[i]).classId)))
      == Some(Arr([TrackEntry(Logged(tracked)[i], rescale(LastBox(Logged(tracked)[i])),
                              TrackingLabel(LastBox(Logged(tracked)[i]).classId), false)]))
    ensures docs.saved.Some? ==>
      Get(docs.saved.value, LabelPath(frameIdx, "trackObj", TrackingLabel(LastBox(Logged(tracked)[i]).classId)))
      == Some(Arr([TrackEntry(Logged(tracked)[i], rescale(LastBox(Logged(tracked)[i])),
                              TrackingLabel(LastBox(Logged(tracked)[i]).classId), false)]))
  {
    var pre := LineSteps(t, res, frameIdx) + (if t.saveDetObj then DetectionSection(lists, rescale, frameIdx) else []);
    var s := Script(t, res, lists, tracked, rescale, frameIdx);
    var others := {"vanishLineY", "LaneInfo", "detectObj"};
    ScriptTracks(t, res, lists, tracked, rescale, frameIdx);
    BeforeTracksWithin(t, res, lists, rescale, frameIdx);
    SpecDocs(t, prior, s, s, docs);
    TrackSlotWins(Null, pre, tracked, rescale, frameIdx, others, i);
    TrackSlotWins(HistoryStart(t, prior), pre, tracked, rescale, frameIdx, others, i);
  }

  /** On one document: after other sections' statements, the tracking part leaves each label's last entry. */
  lemma TrackSlotWins(d: Json, pre: seq<Step>, tracked: seq<TrackedObject>, rescale: Box -> Box, frameIdx: int,
                      others: set<string>, i: nat)
    requires Within(pre, frameIdx, others) && "trackObj" !in others
    requires i < |Logged(tracked)|
    requires forall j :: i < j < |Logged(tracked)| ==>
      TrackingLabel(LastBox(Logged(tracked)[j]).classId) != TrackingLabel(LastBox(Logged(tracked)[i]).classId)
    requires Run(d, pre + (TrackSteps(tracked, rescale, frameIdx, false) + [])).Ok?
    ensures Get(Run(d, pre + (TrackSteps(tracked, rescale, frameIdx, false) + [])).value,
                LabelPath(frameIdx, "trackObj", TrackingLabel(LastBox(Logged(tracked)[i]).classId)))
      == Some(Arr([TrackEntry(Logged(tracked)[i], rescale(LastBox(Logged(tracked)[i])),
                              TrackingLabel(LastBox(Logged(tracked)[i]).classId), false)]))
  {
    var tracks := TrackSteps(tracked, rescale, frameIdx, false);
    TrackStepsLogged(tracked, rescale, frameIdx, false);
    TrackStepsShape(tracked, rescale, frameIdx, false);
    assert tracks[i] == TrackStep(Logged(tracked)[i], rescale, frameIdx, false);
    forall j | i < j < |tracks|
      ensures tracks[j].path[3] != tracks[i].path[3]
    {
      assert tracks[j] == TrackStep(Logged(tracked)[j], rescale, frameIdx, false);
    }
    LabelledLastWins(d, pre, tracks, [], frameIdx, "trackObj", others, i);
  }

  // ---------------------------------------------------------------------------------------------
  // `JsonLogString_2`: appended entries

  /** An append to a section of the frame that no other statement writes. */
  lemma SoleAppend(d: Json, post: seq<Step>, p: Path, v: Json, frameIdx: int, sections: set<string>)
    requires Within(post, frameIdx, sections)
    requires |p| == 3 && p[0] == "frame_ID" && p[1] == IntToString(frameIdx) && p[2] !in sections
    requires Run(d, [Edit(p, Append(v))] + post).Ok?
    ensures Get(Run(d, [Edit(p, Append(v))] + post).value, p) == Some(Arr(ItemsOf(Get(d, p)) + [v]))
  {
    var steps := [Edit(p, Append(v))] + post;
    WithinDiverges(post, frameIdx, sections, p);
    assert forall x :: x in steps ==> x == steps[0] || x in post;
    OpsAtNone(post, p);
    OpsAtConcat([Edit(p, Append(v))], post, p);
    RunAt(d, steps, p);
  }

  /**
   * `JsonLogString_2` appends the `ADAS` entry to its frame whatever the switches say: the
   * current-frame document holds exactly that entry, and the history document gains it after the
   * entries it already had for this frame.
   */
  lemma AdasAppended(t: Toggles, prior: Option<Json>, res: AdasResults, humans: seq<Box>, riders: seq<Box>,
                     vehicles: seq<Box>, stopSigns: seq<Box>, tracked: seq<TrackedObject>,
                     rescale: Box -> Box, frameIdx: int, docs: LogDocs)
    requires JsonLog2Spec(t, prior, res, humans, riders, vehicles, stopSigns, tracked, rescale, frameIdx) == Ok(docs)
    ensures Get(docs.current, SectionPath(frameIdx, "ADAS")) == Some(Arr([AdasEntry(t, res.eventType)]))
    ensures docs.saved.Some? ==>
      Get(docs.saved.value, SectionPath(frameIdx, "ADAS"))
      == Some(Arr(ItemsOf(Get(HistoryStart(t, prior), SectionPath(frameIdx, "ADAS"))) + [AdasEntry(t, res.eventType)]))
  {
    var hs := Script2(t, true, res, humans, riders, vehicles, stopSigns, tracked, rescale, frameIdx);
    var cs := Script2(t, false, res, humans, riders, vehicles, stopSigns, tracked, rescale, frameIdx);
    var p := SectionPath(frameIdx, "ADAS");
    var v := AdasEntry(t, res.eventType);
    SpecDocs(t, prior, hs, cs, docs);
    Script2Rest(t, true, res, humans, riders, vehicles, stopSigns, tracked, rescale, frameIdx);
    Script2Rest(t, false, res, humans, riders, vehicles, stopSigns, tracked, rescale, frameIdx);
    SoleAppend(Null, cs[1..], p, v, frameIdx, SECTIONS);
    assert ItemsOf(Get(Null, p)) + [v] == [v];
    SoleAppend(HistoryStart(t, prior), hs[1..], p, v, frameIdx, SECTIONS);
  }

  /** `JsonLogString_2` starts with the `ADAS` append; everything after it writes other sections. */
  lemma Script2Rest(t: Toggles, forHistory: bool, res: AdasResults, humans: seq<Box>, riders: seq<Box>,
                    vehicles: seq<Box>, stopSigns: seq<Box>, tracked: seq<TrackedObject>,
                    rescale: Box -> Box, frameIdx: int)
    ensures var s := Script2(t, forHistory, res, humans, riders, vehicles, stopSigns, tracked, rescale, frameIdx);
      |s| > 0 && s == [Edit(SectionPath(frameIdx, "ADAS"), Append(AdasEntry(t, res.eventType)))] + s[1..]
      && Within(s[1..], frameIdx, SECTIONS)
  {
    var rest := LineSteps(t, res, frameIdx) + ObjectSteps2(t, forHistory, humans, riders, vehicles, stopSigns, tracked, rescale, frameIdx);
    AppendSectionWithin(forHistory, humans, riders, vehicles, stopSigns, rescale, frameIdx);
    TrackStepsWithin(tracked, rescale, frameIdx, true);
    assert Within(rest, frameIdx, SECTIONS);
  }

  /** The entries `JsonLogString_2` appends for `boxes`, with the label `name` written inside. */
  function Entries(boxes: seq<Box>, rescale: Box -> Box, name: string): (es: seq<Json>)
    ensures |es| == |boxes|
  {
    seq(|boxes|, i requires 0 <= i < |boxes| => NamedDetectionEntry(rescale(boxes[i]), name))
  }

  /** What the loop filing `boxes` under `key` appends to the slot `slotKey`. */
  function KeyOps(boxes: seq<Box>, rescale: Box -> Box, key: string, slotKey: string, name: string): seq<Op>
  {
    if key == slotKey then AppendAll(Entries(boxes, rescale, name)) else []
  }

  lemma AppendStepsOps(boxes: seq<Box>, rescale: Box -> Box, frameIdx: int, key: string, name: string, slotKey: string)
    ensures OpsAt(AppendSteps(boxes, rescale, frameIdx, key, name), LabelPath(frameIdx, "detectObj", slotKey))
      == KeyOps(boxes, rescale, key, slotKey, name)
    ensures AtOrBeside(AppendSteps(boxes, rescale, frameIdx, key, name), LabelPath(frameIdx, "detectObj", slotKey))
  {
    var steps := AppendSteps(boxes, rescale, frameIdx, key, name);
    var p := LabelPath(frameIdx, "detectObj", slotKey);
    if key == slotKey {
      OpsAtAllAt(steps, p);
    } else {
      forall x | x in steps && x.Edit? ensures Diverge(x.path, p) {
        var i :| 0 <= i < |steps| && steps[i] == x;
        DivergeAt(x.path, p, 3);
      }
      OpsAtNone(steps, p);
    }
  }

  /** The appends of the four detection loops to the slot `slotKey`, in loop order. */
  function SectionOps(forHistory: bool, humans: seq<Box>, riders: seq<Box>, vehicles: seq<Box>, stopSigns: seq<Box>,
                      rescale: Box -> Box, slotKey: string): seq<Op>
  {
    KeyOps(vehicles, rescale, "VEHICLE", slotKey, "VEHICLE")
    + KeyOps(humans, rescale, "HUMAN", slotKey, "HUMAN")
    + KeyOps(riders, rescale, RiderKey(forHistory), slotKey, "SMALL_VEHICLE")
    + KeyOps(stopSigns, rescale, StopSignKey(forHistory), slotKey, "STOP_SIGN")
  }

  lemma AppendSectionOps(forHistory: bool, humans: seq<Box>, riders: seq<Box>, vehicles: seq<Box>, stopSigns: seq<Box>,
                         rescale: Box -> Box, frameIdx: int, slotKey: string)
    ensures OpsAt(AppendSection(forHistory, humans, riders, vehicles, stopSigns, rescale, frameIdx), LabelPath(frameIdx, "detectObj", slotKey))
      == SectionOps(forHistory, humans, riders, vehicles, stopSigns, rescale, slotKey)
    ensures AtOrBeside(AppendSection(forHistory, humans, riders, vehicles, stopSigns, rescale, frameIdx), LabelPath(frameIdx, "detectObj", slotKey))
  {
    var p := LabelPath(frameIdx, "detectObj", slotKey);
    var a1 := AppendSteps(vehicles, rescale, frameIdx, "VEHICLE", "VEHICLE");
    var a2 := AppendSteps(humans, rescale, frameIdx, "HUMAN", "HUMAN");
    var a3 := AppendSteps(riders, rescale, frameIdx, RiderKey(forHistory), "SMALL_VEHICLE");
    var a4 := AppendSteps(stopSigns, rescale, frameIdx, StopSignKey(forHistory), "STOP_SIGN");
    AppendStepsOps(vehicles, rescale, frameIdx, "VEHICLE", "VEHICLE", slotKey);
    AppendStepsOps(humans, rescale, frameIdx, "HUMAN", "HUMAN", slotKey);
    AppendStepsOps(riders, rescale, frameIdx, RiderKey(forHistory), "SMALL_VEHICLE", slotKey);
    AppendStepsOps(stopSigns, rescale, frameIdx, StopSignKey(forHistory), "STOP_SIGN", slotKey);
    OpsAtConcat(a1, a2, p);
    OpsAtConcat(a1 + a2, a3, p);
    OpsAtConcat(a1 + a2 + a3, a4, p);
    assert forall x :: x in a1 + a2 + a3 + a4 ==> x in a1 || x in a2 || x in a3 || x in a4;
  }

  /** Statements for other sections around a block leave a slot of the block's section to the block. */
  lemma MiddleOps(d: Json, pre: seq<Step>, mid: seq<Step>, post: seq<Step>, p: Path, frameIdx: int, sections: set<string>)
    requires Within(pre, frameIdx, sections) && Within(post, frameIdx, sections)
    requires |p| >= 3 && p[2] !in sections && AtOrBeside(mid, p)
    requires Run(d, pre + (mid + post)).Ok?
    ensures Get(Run(d, pre + (mid + post)).value, p) == AfterOps(Get(d, p), OpsAt(mid, p))
  {
    var steps := pre + (mid + post);
    WithinDiverges(pre, frameIdx, sections, p);
    WithinDiverges(post, frameIdx, sections, p);
    forall x | x in pre && x.Edit? ensures x.path != p {
      assert Diverge(x.path, p);
    }
    forall x | x in post && x.Edit? ensures x.path != p {
      assert Diverge(x.path, p);
    }
    OpsAtNone(pre, p);
    OpsAtNone(post, p);
    OpsAtConcat(mid, post, p);
    OpsAtConcat(pre, mid + post, p);
    assert OpsAt(steps, p) == OpsAt(mid, p);
    forall x | x in steps && x.Edit? ensures x.path == p || Diverge(x.path, p) {
      if x !in mid {
        assert x in pre || x in post;
      }
    }
    RunAt(d, steps, p);
  }

  /** The slot `slotKey` of `detectObj` after `JsonLogString_2`'s statements for one document. */
  lemma DetectionSlot2(d: Json, t: Toggles, forHistory: bool, res: AdasResults, humans: seq<Box>, riders: seq<Box>,
                       vehicles: seq<Box>, stopSigns: seq<Box>, tracked: seq<TrackedObject>,
                       rescale: Box -> Box, frameIdx: int, slotKey: string)
    requires t.saveDetObj
    requires Run(d, Script2(t, forHistory, res, humans, riders, vehicles, stopSigns, tracked, rescale, frameIdx)).Ok?
    ensures Get(Run(d, Script2(t, forHistory, res, humans, riders, vehicles, stopSigns, tracked, rescale, frameIdx)).value,
                LabelPath(frameIdx, "detectObj", slotKey))
      == AfterOps(Get(d, LabelPath(frameIdx, "detectObj", slotKey)),
                  SectionOps(forHistory, humans, riders, vehicles, stopSigns, rescale, slotKey))
  {
    var pre := AdasSteps(t, res, frameIdx) + LineSteps(t, res, frameIdx);
    var mid := AppendSection(forHistory, humans, riders, vehicles, stopSigns, rescale, frameIdx);
    var post := if t.saveTrackObj then TrackSteps(tracked, rescale, frameIdx, true) else [];
    var others := {"ADAS", "vanishLineY", "LaneInfo", "trackObj"};
    Script2Around(t, forHistory, res, humans, riders, vehicles, stopSigns, tracked, rescale, frameIdx);
    Script2AroundWithin(t, res, tracked, rescale, frameIdx);
    AppendSectionOps(forHistory, humans, riders, vehicles, stopSigns, rescale, frameIdx, slotKey);
    MiddleOps(d, pre, mid, post, LabelPath(frameIdx, "detectObj", slotKey), frameIdx, others);
  }

  /** With detection logging on, `JsonLogString_2`'s detection block sits between other sections' statements. */
  lemma Script2Around(t: Toggles, forHistory: bool, res: AdasResults, humans: seq<Box>, riders: seq<Box>,
                      vehicles: seq<Box>, stopSigns: seq<Box>, tracked: seq<TrackedObject>,
                      rescale: Box -> Box, frameIdx: int)
    requires t.saveDetObj
    ensures Script2(t, forHistory, res, humans, riders, vehicles, stopSigns, tracked, rescale, frameIdx)
      == (AdasSteps(t, res, frameIdx) + LineSteps(t, res, frameIdx))
         + (AppendSection(forHistory, humans, riders, vehicles, stopSigns, rescale, frameIdx)
            + if t.saveTrackObj then TrackSteps(tracked, rescale, frameIdx, true) else [])
  {
  }

  lemma Script2AroundWithin(t: Toggles, res: AdasResults, tracked: seq<TrackedObject>, rescale: Box -> Box, frameIdx: int)
    ensures Within(AdasSteps(t, res, frameIdx) + LineSteps(t, res, frameIdx), frameIdx, {"ADAS", "vanishLineY", "LaneInfo", "trackObj"})
    ensures Within(if t.saveTrackObj then TrackSteps(tracked, rescale, frameIdx, true) else [], frameIdx, {"ADAS", "vanishLineY", "LaneInfo", "trackObj"})
  {
    TrackStepsWithin(tracked, rescale, frameIdx, true);
  }

  /** A slot whose appends in one document are exactly `vs`. */
  lemma SlotOfDocument(d: Json, t: Toggles, forHistory: bool, res: AdasResults, humans: seq<Box>, riders: seq<Box>,
                       vehicles: seq<Box>, stopSigns: seq<Box>, tracked: seq<TrackedObject>,
                       rescale: Box -> Box, frameIdx: int, slotKey: string, vs: seq<Json>)
    requires t.saveDetObj
    requires SectionOps(forHistory, humans, riders, vehicles, stopSigns, rescale, slotKey) == AppendAll(vs)
    requires Run(d, Script2(t, forHistory, res, humans, riders, vehicles, stopSigns, tracked, rescale, frameIdx)).Ok?
    ensures Get(Run(d, Script2(t, forHistory, res, humans, riders, vehicles, stopSigns, tracked, rescale, frameIdx)).value,
                LabelPath(frameIdx, "detectObj", slotKey))
      == if |vs| == 0 then Get(d, LabelPath(frameIdx, "detectObj", slotKey))
         else Some(Arr(ItemsOf(Get(d, LabelPath(frameIdx, "detectObj", slotKey))) + vs))
  {
    DetectionSlot2(d, t, forHistory, res, humans, riders, vehicles, stopSigns, tracked, rescale, frameIdx, slotKey);
    AfterAppendAll(Get(d, LabelPath(frameIdx, "detectObj", slotKey)), vs);
  }

  /**
   * Vehicles and humans go under the same keys in both documents: the current-frame document holds
   * one entry per box, in order, and the history document gains them after its earlier entries.
   */
  lemma VehiclesAndHumansAppended(t: Toggles, prior: Option<Json>, res: AdasResults, humans: seq<Box>, riders: seq<Box>,
                                  vehicles: seq<Box>, stopSigns: seq<Box>, tracked: seq<TrackedObject>,
                                  rescale: Box -> Box, frameIdx: int, docs: LogDocs)
    requires JsonLog2Spec(t, prior, res, humans, riders, vehicles, stopSigns, tracked, rescale, frameIdx) == Ok(docs)
    requires t.saveDetObj
    ensures Get(docs.current, LabelPath(frameIdx, "detectObj", "HUMAN"))
      == if |humans| == 0 then None else Some(Arr(Entries(humans, rescale, "HUMAN")))
    ensures Get(docs.current, LabelPath(frameIdx, "detectObj", "VEHICLE"))
      == if |vehicles| == 0 then None else Some(Arr(Entries(vehicles, rescale, "VEHICLE")))
    ensures docs.saved.Some? && |humans| > 0 ==>
      Get(docs.saved.value, LabelPath(frameIdx, "detectObj", "HUMAN"))
      == Some(Arr(ItemsOf(Get(HistoryStart(t, prior), LabelPath(frameIdx, "detectObj", "HUMAN"))) + Entries(humans, rescale, "HUMAN")))
    ensures docs.saved.Some? && |vehicles| > 0 ==>
      Get(docs.saved.value, LabelPath(frameIdx, "detectObj", "VEHICLE"))
      == Some(Arr(ItemsOf(Get(HistoryStart(t, prior), LabelPath(frameIdx, "detectObj", "VEHICLE"))) + Entries(vehicles, rescale, "VEHICLE")))
  {
    var hs := Script2(t, true, res, humans, riders, vehicles, stopSigns, tracked, rescale, frameIdx);
    var cs := Script2(t, false, res, humans, riders, vehicles, stopSigns, tracked, rescale, frameIdx);
    var h0 := HistoryStart(t, prior);
    var hv, vv := Entries(humans, rescale, "HUMAN"), Entries(vehicles, rescale, "VEHICLE");
    SpecDocs(t, prior, hs, cs, docs);
    assert SectionOps(true, humans, riders, vehicles, stopSigns, rescale, "HUMAN") == AppendAll(hv);
    assert SectionOps(false, humans, riders, vehicles, stopSigns, rescale, "HUMAN") == AppendAll(hv);
    assert SectionOps(true, humans, riders, vehicles, stopSigns, rescale, "VEHICLE") == AppendAll(vv);
    assert SectionOps(false, humans, riders, vehicles, stopSigns, rescale, "VEHICLE") == AppendAll(vv);
    SlotOfDocument(Null, t, false, res, humans, riders, vehicles, stopSigns, tracked, rescale, frameIdx, "HUMAN", hv);
    SlotOfDocument(Null, t, false, res, humans, riders, vehicles, stopSigns, tracked, rescale, frameIdx, "VEHICLE", vv);
    SlotOfDocument(h0, t, true, res, humans, riders, vehicles, stopSigns, tracked, rescale, frameIdx, "HUMAN", hv);
    SlotOfDocument(h0, t, true, res, humans, riders, vehicles, stopSigns, tracked, rescale, frameIdx, "VEHICLE", vv);
    assert [] + hv == hv && [] + vv == vv;
  }

  /**
   * Riders are filed as `SMALL_VEHICLE` in the current-frame document but as `SMALL VEHICLE` in the
   * history document, so each document has the riders under a key the other never gets.
   */
  lemma RiderKeysDiffer(t: Toggles, prior: Option<Json>, res: AdasResults, humans: seq<Box>, riders: seq<Box>,
                        vehicles: seq<Box>, stopSigns: seq<Box>, tracked: seq<TrackedObject>,
                        rescale: Box -> Box, frameIdx: int, docs: LogDocs)
    requires JsonLog2Spec(t, prior, res, humans, riders, vehicles, stopSigns, tracked, rescale, frameIdx) == Ok(docs)
    requires t.saveDetObj && |riders| > 0
    ensures Get(docs.current, LabelPath(frameIdx, "detectObj", "SMALL_VEHICLE")) == Some(Arr(Entries(riders, rescale, "SMALL_VEHICLE")))
    ensures Get(docs.current, LabelPath(frameIdx, "detectObj", "SMALL VEHICLE")) == None
    ensures docs.saved.Some? ==>
      Get(docs.saved.value, LabelPath(frameIdx, "detectObj", "SMALL VEHICLE"))
      == Some(Arr(ItemsOf(Get(HistoryStart(t, prior), LabelPath(frameIdx, "detectObj", "SMALL VEHICLE"))) + Entries(riders, rescale, "SMALL_VEHICLE")))
    ensures docs.saved.Some? ==>
      Get(docs.saved.value, LabelPath(frameIdx, "detectObj", "SMALL_VEHICLE"))
      == Get(HistoryStart(t, prior), LabelPath(frameIdx, "detectObj", "SMALL_VEHICLE"))
  {
    var hs := Script2(t, true, res, humans, riders, vehicles, stopSigns, tracked, rescale, frameIdx);
    var cs := Script2(t, false, res, humans, riders, vehicles, stopSigns, tracked, rescale, frameIdx);
    var h0 := HistoryStart(t, prior);
    var rv := Entries(riders, rescale, "SMALL_VEHICLE");
    SpecDocs(t, prior, hs, cs, docs);
    assert SectionOps(false, humans, riders, vehicles, stopSigns, rescale, "SMALL_VEHICLE") == AppendAll(rv);
    assert SectionOps(false, humans, riders, vehicles, stopSigns, rescale, "SMALL VEHICLE") == AppendAll([]);
    assert SectionOps(true, humans, riders, vehicles, stopSigns, rescale, "SMALL VEHICLE") == AppendAll(rv);
    assert SectionOps(true, humans, riders, vehicles, stopSigns, rescale, "SMALL_VEHICLE") == AppendAll([]);
    SlotOfDocument(Null, t, false, res, humans, riders, vehicles, stopSigns, tracked, rescale, frameIdx, "SMALL_VEHICLE", rv);
    SlotOfDocument(Null, t, false, res, humans, riders, vehicles, stopSigns, tracked, rescale, frameIdx, "SMALL VEHICLE", []);
    SlotOfDocument(h0, t, true, res, humans, riders, vehicles, stopSigns, tracked, rescale, frameIdx, "SMALL VEHICLE", rv);
    SlotOfDocument(h0, t, true, res, humans, riders, vehicles, stopSigns, tracked, rescale, frameIdx, "SMALL_VEHICLE", []);
    assert [] + rv == rv;
  }

  /** Stop signs likewise: `STOP_SIGN` in the current-frame document, `STOPSIGN` in the history. */
  lemma StopSignKeysDiffer(t: Toggles, prior: Option<Json>, res: AdasResults, humans: seq<Box>, riders: seq<Box>,
                           vehicles: seq<Box>, stopSigns: seq<Box>, tracked: seq<TrackedObject>,
                           rescale: Box -> Box, frameIdx: int, docs: LogDocs)
    requires JsonLog2Spec(t, prior, res, humans, riders, vehicles, stopSigns, tracked, rescale, frameIdx) == Ok(docs)
    requires t.saveDetObj && |stopSigns| > 0
    ensures Get(docs.current, LabelPath(frameIdx, "detectObj", "STOP_SIGN")) == Some(Arr(Entries(stopSigns, rescale, "STOP_SIGN")))
    ensures Get(docs.current, LabelPath(frameIdx, "detectObj", "STOPSIGN")) == None
    ensures docs.saved.Some? ==>
      Get(docs.saved.value, LabelPath(frameIdx, "detectObj", "STOPSIGN"))
      == Some(Arr(ItemsOf(Get(HistoryStart(t, prior), LabelPath(frameIdx, "detectObj", "STOPSIGN"))) + Entries(stopSigns, rescale, "STOP_SIGN")))
    ensures docs.saved.Some? ==>
      Get(docs.saved.value, LabelPath(frameIdx, "detectObj", "STOP_SIGN"))
      == Get(HistoryStart(t, prior), LabelPath(frameIdx, "detectObj", "STOP_SIGN"))
  {
    var hs := Script2(t, true, res, humans, riders, vehicles, stopSigns, tracked, rescale, frameIdx);
    var cs := Script2(t, false, res, humans, riders, vehicles, stopSigns, tracked, rescale, frameIdx);
    var h0 := HistoryStart(t, prior);
    var sv := Entries(stopSigns, rescale, "STOP_SIGN");
    SpecDocs(t, prior, hs, cs, docs);
    assert SectionOps(false, humans, riders, vehicles, stopSigns, rescale, "STOP_SIGN") == AppendAll(sv);
    assert SectionOps(false, humans, riders, vehicles, stopSigns, rescale, "STOPSIGN") == AppendAll([]);
    assert SectionOps(true, humans, riders, vehicles, stopSigns, rescale, "STOPSIGN") == AppendAll(sv);
    assert SectionOps(true, humans, riders, vehicles, stopSigns, rescale, "STOP_SIGN") == AppendAll([]);
    SlotOfDocument(Null, t, false, res, humans, riders, vehicles, stopSigns, tracked, rescale, frameIdx, "STOP_SIGN", sv);
    SlotOfDocument(Null, t, false, res, humans, riders, vehicles, stopSigns, tracked, rescale, frameIdx, "STOPSIGN", []);
    SlotOfDocument(h0, t, true, res, humans, riders, vehicles, stopSigns, tracked, rescale, frameIdx, "STOPSIGN", sv);
    SlotOfDocument(h0, t, true, res, humans, riders, vehicles, stopSigns, tracked, rescale, frameIdx, "STOP_SIGN", []);
    assert [] + sv == sv;
  }

  // ---------------------------------------------------------------------------------------------
  // Reading a frame back

  /** A log file holding one frame. */
  function OneFrameFile(frameIdx: int, frame: Json): Json
  {
    Obj(map["frame_ID" := Obj(map[IntToString(frameIdx) := frame])])
  }

  /**
   * `GetJsonValueByKey` as written answers the same empty text for two log files whose frame 7
   * differs, so the caller cannot learn what was logged; the corrected lookup tells them apart.
   */
  lemma GetJsonValueByKeyLosesFrame()
    ensures GetJsonValueByKey(Some(OneFrameFile(7, Obj(map["ADAS" := Arr([Null])]))), 7) == Ok("")
    ensures GetJsonValueByKey(Some(OneFrameFile(7, Obj(map[]))), 7) == Ok("")
    ensures FrameLookup(Some(OneFrameFile(7, Obj(map["ADAS" := Arr([Null])]))), 7) == Ok(Found(Obj(map["ADAS" := Arr([Null])])))
    ensures FrameLookup(Some(OneFrameFile(7, Obj(map[]))), 7) == Ok(Found(Obj(map[])))
  {
    OneFrameFileHolds(7, Obj(map["ADAS" := Arr([Null])]));
    OneFrameFileHolds(7, Obj(map[]));
  }

  lemma OneFrameFileHolds(frameIdx: int, frame: Json)
    ensures Get(OneFrameFile(frameIdx, frame), ["frame_ID", IntToString(frameIdx)]) == Some(frame)
  {
    var key := IntToString(frameIdx);
    var inner := Obj(map[key := frame]);
    var p := ["frame_ID", key];
    assert p[1..] == [key] && [key][1..] == [];
    assert Get(frame, []) == Some(frame);
    assert Get(inner, [key]) == Get(frame, []);
    assert Get(OneFrameFile(frameIdx, frame), p) == Get(inner, [key]);
  }

  /**
   * What `JsonLogString_2` saves can be read back with the corrected lookup: the frame is found
   * in the history document, and its `ADAS` list ends with the entry just logged. The lookup as
   * written finds the same frame and still returns the empty text.
   */
  lemma LoggedFrameReadsBack(t: Toggles, prior: Option<Json>, res: AdasResults, humans: seq<Box>, riders: seq<Box>,
                             vehicles: seq<Box>, stopSigns: seq<Box>, tracked: seq<TrackedObject>,
                             rescale: Box -> Box, frameIdx: int, docs: LogDocs)
    requires JsonLog2Spec(t, prior, res, humans, riders, vehicles, stopSigns, tracked, rescale, frameIdx) == Ok(docs)
    requires docs.saved.Some?
    ensures FrameLookup(docs.saved, frameIdx).Ok? && FrameLookup(docs.saved, frameIdx).value.Found?
    ensures var f := FrameLookup(docs.saved, frameIdx).value.frame;
      Get(f, ["ADAS"]) == Some(Arr(ItemsOf(Get(HistoryStart(t, prior), SectionPath(frameIdx, "ADAS"))) + [AdasEntry(t, res.eventType)]))
    ensures GetJsonValueByKey(docs.saved, frameIdx) == Ok("")
  {
    var h := docs.saved.value;
    AdasAppended(t, prior, res, humans, riders, vehicles, stopSigns, tracked, rescale, frameIdx, docs);
    assert SectionPath(frameIdx, "ADAS") == ["frame_ID", IntToString(frameIdx)] + ["ADAS"];
    GetPrefix(h, ["frame_ID", IntToString(frameIdx)], ["ADAS"]);
  }
}
