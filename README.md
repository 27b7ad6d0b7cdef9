# ADAS frame orchestrator and frame log, in Dafny

This project models two parts of the ADAS application:

- The per-frame orchestrator `ADAS` on the QCS6490 path (`adas.cpp`, `adas.hpp`). It covers:
  - the entry gate of `run`;
  - the five processing stages, in order: lane lines, object detection, tracking, lane departure, forward collision;
  - the frame counter (`_updateFrameIndex`);
  - the result snapshot (`getResults`, `getDetectEvents`);
  - the following distance;
  - the ROI and the fields `_init` sets.
- The frame-log builders of `JSON_LOG` (`json_log.cpp`): `JsonLogString`, `JsonLogString_2`, and the lookup part of `GetJsonValueByKey`.

## Modules

- `Basics` (`basics.dfy`): `Option` and `Result`, and the C++ arithmetic the code relies on:
  - the truncating `%`;
  - `static_cast<int>` of a floating value;
  - `std::round`;
  - ordering lemmas for exact quotients.
- `Decimal` (`decimal.dfy`): `std::to_string` on integers, which keys each frame in the log. It is proved injective and readable back.
- `JsonDoc` (`json_doc.dfy`): the nlohmann document tree.
  - `operator[]` followed by `=` or `push_back` is one `Modify` at a path. Type errors become `Err(TypeError)`.
  - An edit script is a `seq<Step>`. `Run` applies it to one document; `RunPair` applies two scripts in lockstep, the way the builders write the history document and then the current-frame document.
  - Lemmas say what a run leaves at a path: the last assignment wins, appends accumulate, and paths that part from every edit are untouched.
- `AdasTypes` (`adas_types.dfy`):
  - constants: `ADAS_SUCCESS`/`ADAS_FAILURE`, the 65535 counter modulus;
  - the `ADAS_EVENTS` enum and its codes, and the `LDW`/`FCW` flags the log derives from a code;
  - the two label maps;
  - the counter update, the following-distance choice, the ROI computation, the lane-width test and the vanish-line update.
- `AdasPipeline` (`adas.dfy`): class `Adas`.
  - Its `const` fields are the values `_init` sets once; its `var` fields are the ones `run` changes.
  - Each stage is a method proved equal to a stage function on the state (`AdasState`). `Run` is proved equal to `RunStep` followed by the log built by `JsonLogString`.
  - `RunAll` folds `RunStep` over a sequence of frames.
- `JsonLog` (`json_log.dfy`): the builders as loop methods, proved equal to edit-script specifications `JsonLogSpec` and `JsonLog2Spec`. Also `GetJsonValueByKey` as written and the corrected `FrameLookup`.
- `JsonLogProps` (`json_log_props.dfy`) and `AdasProps` (`adas_props.dfy`): what the builders and `run` promise, stated over those specifications.

The collaborators `run` calls appear as one `FrameEnv` per call: what each answers for the frame, with functions where the answer depends on the arguments. These are the YOLO prediction and result buffers, the lane-line fitter, FCW's filters and verdict, LDW's warning counter and the three trackers. The box rescaling and `getArea` are function parameters.

## Model

| member | source | states |
|---|---|---|
| Basics.CRem | adas.cpp:633 | C++ `%` on int: for a non-negative dividend it is Dafny's `%` on the divisor's magnitude; otherwise the remainder takes the dividend's sign, bounded by the divisor |
| Basics.Trunc | adas.cpp:535-552 | `static_cast<int>` truncates toward zero: the result is within 1 of the value, on the side of zero |
| Basics.RoundHalfAway | adas.cpp:1163-1168 | `std::round` is within 0.5 of the value, and a halfway case rounds away from zero |
| Basics.QuotientAbove | adas.cpp:1091 | dividing by a positive width keeps the order of a comparison |
| Basics.QuotientBelow | adas.cpp:1091 | dividing by a negative width reverses the order of a comparison |
| Decimal.IntToString | json_log.cpp:57 | `std::to_string` gives a non-empty text that starts with '-' exactly for negative values |
| Decimal.ParseIntToString | json_log.cpp:57 | the frame key reads back as the frame index |
| Decimal.IntToStringInjective | json_log.cpp:57-58 | different frame indices get different keys, so frames never share a slot |
| JsonDoc.GetModifySame | json_log.cpp:57-58 | after `doc[...][...] = v` or `push_back(v)` succeeds, the slot holds what the operation puts there |
| JsonDoc.GetModifyOther | json_log.cpp:57-58 | an edit leaves every path that parts from its own path unchanged |
| JsonDoc.RunPairBoth | json_log.cpp:57-58 | writing the two documents in lockstep succeeds exactly when each run alone succeeds, and yields both results |
| JsonDoc.RunPairConcat | json_log.cpp:50-81 | a lockstep run over two concatenated blocks is the run over the first block, then the second |
| JsonDoc.RunAt | json_log.cpp:133-134 | the value a run leaves at a path depends only on the operations at exactly that path |
| JsonDoc.RunBeside | json_log.cpp:36-48 | a run whose edits all part from a path leaves that path's value as the file had it |
| JsonDoc.AfterOpsLastAssign | json_log.cpp:184-185 | of several assignments to one slot, the last one wins |
| JsonDoc.AfterOpsAppends | json_log.cpp:353-354 | `push_back` accumulates: the slot holds its old elements followed by every appended value |
| JsonDoc.RunLastAssign | json_log.cpp:133-134 | the last assignment at a path decides what a successful run leaves there |
| JsonDoc.RunUndefined | json_log.cpp:91 | a script that reaches a read past the array of lists cannot succeed |
| JsonDoc.AfterAppendAll | json_log.cpp:398-399 | pushing values leaves the old elements followed by the values in order; pushing none changes nothing |
| AdasTypes.EventCode | adas.hpp:57-63 | every event has a code in 0..3 |
| AdasTypes.EventCodeRoundTrip | adas.hpp:57-63 | codes and events correspond one to one: an event's code names it back, and every valid code is some event's |
| AdasTypes.ClassifyEvent | adas.cpp:1338-1356 | the event includes LDW exactly when lane departure is set, and FCW exactly when forward collision is set |
| AdasTypes.LdwFlag | json_log.cpp:238-251 | the log's `LDW` value is 1 exactly for the LDW and LDW_FCW codes, else 0 |
| AdasTypes.FcwFlag | json_log.cpp:253-265 | the log's `FCW` value is 1 exactly for the FCW and LDW_FCW codes, else 0 |
| AdasTypes.FlagsRecoverWarnings | json_log.cpp:238-265 | the two logged flags give back the two warnings the event code was made from |
| AdasTypes.ClassLabel | json_log.cpp:105-118 | class 0 is labelled `HUMAN`, 1 `RIDER`, 2 `VEHICLE`, and every other id gets the fallback |
| AdasTypes.DetectionLabel | json_log.cpp:105-118 | the detection label is `UNKNOWN` exactly for class ids outside 0..2 (the three known names come from `ClassLabel`) |
| AdasTypes.TrackingLabel | json_log.cpp:157-169 | the tracking label is empty exactly for class ids outside 0..2 (the three known names come from `ClassLabel`) |
| AdasTypes.LabelMapsDiffer | json_log.cpp:105-169 | both label maps name class 0 `HUMAN`, 1 `RIDER` and 2 `VEHICLE`; on every other id the detection map says `UNKNOWN` and the tracking map gives the empty string |
| AdasTypes.NextFrameIndex | adas.cpp:2090-2093 | from a non-negative index the next one lies in 1..65535; it is the successor below 65535 and 1 at 65535 |
| AdasTypes.FrameIndexCycles | adas.cpp:2090-2093 | from 0, the n-th update gives `(n - 1) % 65535 + 1`: the counter never returns to 0 and has period 65535 |
| AdasTypes.FollowingIndex | adas.cpp:1358-1375 | the chosen vehicle has the largest positive box area, strictly larger than every earlier one; none is chosen exactly when no area is positive |
| AdasTypes.CenteredRoi | adas.cpp:517-598 | the ROI lies inside the model frame and is centred on its middle, in both directions |
| AdasTypes.LaneTooWideInIntegers | adas.cpp:1091-1094 | the lane-width test holds exactly when the lane is wider than 11/20 of the model width, on the side of the width's sign; for a zero width, exactly when the lane width is positive |
| AdasTypes.UpdatedVanishLine | adas.cpp:1163-1168 | a zero fitter report keeps the vanish line; otherwise it is the report scaled to frame height and rounded to the nearest integer, halfway cases away from zero |
| AdasPipeline.GeometryOf | adas.cpp:268-300 | the ROI is the centred box of the model size, the focal ratio times the model height gives the frame height, and step and width are the configured ones |
| AdasPipeline.RunStep | adas.cpp:605-762 | `run` returns false exactly for an empty image or a gated frame whose result buffer is empty, and then changes nothing; otherwise the index advances once |
| AdasPipeline.Adas.constructor | adas.cpp:234-300 | the declared initial values, then `_init`: geometry from the configuration, vanish line from the configuration, everything else zero or empty |
| AdasPipeline.Adas.LaneLineDetection | adas.cpp:1114-1211 | succeeds; stores the lane boxes and the fitter's lane, width and detection flag; moves the vanish line only on a non-zero report |
| AdasPipeline.Adas.ObjectDetection | adas.cpp:1214-1263 | succeeds; stores the frame's detections, clears the lane flag when a car is within 10 m, keeps FCW's filtered lists |
| AdasPipeline.Adas.ObjectTracking | adas.cpp:1266-1293 | succeeds; the trackers' lists are kept, and the merged list is humans, then riders, then vehicles, rebuilt from empty |
| AdasPipeline.Adas.LaneDepartureDetection | adas.cpp:1057-1111 | succeeds; the departure flag can only be cleared (never raised), and only when no lane is detected and the lane is too wide or LDW's counter is 0 |
| AdasPipeline.Adas.ForwardCollisionDetection | adas.cpp:1296-1303 | succeeds; the collision flag is FCW's verdict on the merged tracked list and the vanish line |
| AdasPipeline.Adas.ProcessFrame | adas.cpp:665-699 | the five stages in order, each checked for success; the state becomes their composition |
| AdasPipeline.Adas.UpdateFrameIndex | adas.cpp:2090-2093 | only the index changes, to `NextFrameIndex` of the old one |
| AdasPipeline.Adas.GetDetectEvents | adas.cpp:1338-1356 | the code of the event named by the two warning flags |
| AdasPipeline.Adas.GetResults | adas.cpp:1308-1336 | the snapshot takes the zone's corners only when both far points are off row 0; it always takes the lane flag, vanish line, event code and tracked list; it returns the stored result |
| AdasPipeline.Adas.GetFollowingDistance | adas.cpp:1358-1375 | the distance of the first vehicle with the largest positive area, or -1 when there is none |
| AdasPipeline.Adas.Run | adas.cpp:605-762 | the new state is that of `RunStep`; when `RunStep` returns false the outcome is `Ok(false)` with no log; otherwise the outcome is `Ok(true)` with the `JsonLogString` documents of the new state, or, when the log builder throws, `Err` with its error and no log |
| JsonLog.EditBoth | json_log.cpp:57-58 | one statement pair: the history edit, then the current-frame edit; the first failure stops both |
| JsonLog.WriteDetectionList | json_log.cpp:93-135 | the inner detection loop runs exactly the detection script of its list |
| JsonLog.WriteDetections | json_log.cpp:85-137 | the outer detection loop, bounded by the size of the first list, runs the detection section, including the undefined read past the array |
| JsonLog.WriteTracks | json_log.cpp:139-188 | the tracking loop runs one statement per object with a box history, in order, and skips the rest |
| JsonLog.AppendDetections | json_log.cpp:313-355 | one `JsonLogString_2` detection loop appends one entry per box, under the history key and the current key |
| JsonLog.WriteLines | json_log.cpp:50-81 | the vanish-line and lane statements, each behind its switch |
| JsonLog.WriteObjects | json_log.cpp:85-188 | the detection and tracking statements of `JsonLogString`, each behind its switch |
| JsonLog.JsonLogString | json_log.cpp:27-207 | the builder's documents (or the failure that stops it) are exactly the lockstep run of its script; the history document is kept only when saving to file |
| JsonLog.WriteAppendSection | json_log.cpp:305-541 | vehicles, then humans, then riders, then stop signs; road signs are not logged |
| JsonLog.WriteObjects2 | json_log.cpp:305-592 | the detection and tracking statements of `JsonLogString_2`, each behind its switch |
| JsonLog.JsonLogString2 | json_log.cpp:210-611 | the `ADAS` append first, then the line, detection and tracking statements, run in lockstep |
| JsonLog.GetJsonValueByKey | json_log.cpp:626-664 | as written: a failed open answers `FILE_OPEN_FAILED`; a document that is neither null nor an object throws; a present frame answers the empty text and an absent one `FRAME_ID_NOT_FOUND_ERROR` |
| JsonLog.FrameLookup | json_log.cpp:626-664 | corrected: the same failure answers, and a present frame yields exactly the document stored under it |
| JsonLogProps.SpecDocs | json_log.cpp:200-206 | the returned document is the run of the script on null; the history document is saved exactly when saving to file is on |
| JsonLogProps.OtherFramesUntouched | json_log.cpp:27-207 | `JsonLogString` writes only under its own frame: the current document holds nothing else, and the history keeps the rest of the file |
| JsonLogProps.OtherFramesUntouched2 | json_log.cpp:210-611 | the same for `JsonLogString_2` |
| JsonLogProps.EarlierFramesKept | json_log.cpp:36-48 | every other frame the log file had survives the rewrite unchanged |
| JsonLogProps.LinesLogged | json_log.cpp:50-81 | with its switch on, the vanish line and lane geometry of the results are in their sections of both documents; with it off, the current document has no such section and the history keeps its own |
| JsonLog.IntendedDetectionSection | json_log.cpp:85-137 | the detection loops bounded by the number of lists: they agree with the as-written section whenever the first list has as many boxes as there are lists, and with no lists they write nothing where the as-written section reads past the array |
| JsonLogProps.IntendedDetectionsVisitAll | json_log.cpp:85-137 | bounded by the number of lists, the loops never read past the array and write one statement for every box of every list, in order |
| JsonLogProps.LoneVehicleNotLogged | json_log.cpp:88 | as written, five lists holding one vehicle and no human log nothing; the corrected bound logs the vehicle |
| JsonLogProps.DetectionLastWins | json_log.cpp:120-134 | each label's detection slot holds the entry of the last box the loops visit with that label, in both documents |
| JsonLogProps.NoHumansNoDetections | json_log.cpp:88 | with no human in the first list, the frame gets no `detectObj` section, and the history keeps what it had there |
| JsonLogProps.DetectionOverrunFails | json_log.cpp:88-91 | with more humans than lists (or no list at all), the builder cannot finish |
| JsonLogProps.TrackStepsLogged | json_log.cpp:141-146 | the tracking loop writes one statement per object with a box history, the i-th for the i-th such object |
| JsonLogProps.TrackSlotWins | json_log.cpp:139-188 | on either document, after statements for other sections, the tracking part leaves in each label's slot the entry of the last logged object with that label |
| JsonLogProps.TrackLastWins | json_log.cpp:139-188 | each label's tracking slot holds the entry of the last logged object with that label, built from its rescaled last box |
| JsonLogProps.AdasAppended | json_log.cpp:237-267 | the `ADAS` entry is appended whatever the switches: the current document holds exactly it, and the history gains it after its earlier entries |
| JsonLogProps.VehiclesAndHumansAppended | json_log.cpp:313-400 | vehicles and humans go under the same keys in both documents, one entry per box in order, after the history's earlier entries |
| JsonLogProps.RiderKeysDiffer | json_log.cpp:403-445 | riders go under `SMALL_VEHICLE` in the current document and under `SMALL VEHICLE` in the history, never the other key |
| JsonLogProps.StopSignKeysDiffer | json_log.cpp:495-538 | stop signs go under `STOP_SIGN` in the current document and under `STOPSIGN` in the history |
| JsonLogProps.GetJsonValueByKeyLosesFrame | json_log.cpp:654-663 | two files whose frame 7 differs get the same empty answer from the lookup as written; the corrected lookup returns each frame |
| JsonLogProps.LoggedFrameReadsBack | json_log.cpp:604-664 | what `JsonLogString_2` saves reads back with the corrected lookup, its `ADAS` list ending with the new entry; the lookup as written answers empty text |
| AdasProps.FirstFrameGate | adas.cpp:633-651 | the first call after `_init` passes the gate exactly when a prediction is waiting |
| AdasProps.SkippedFrameKeepsPerception | adas.cpp:633-741 | a frame that misses the gate still returns true and advances the index, but keeps the detections, tracks, lane state and warnings |
| AdasProps.ProcessedFrameFacts | adas.cpp:651-741 | a processed frame holds this frame's detections and the lane flag combined with the car-ahead override; the tracked list is the trackers' lists in order; the collision flag is FCW's verdict; departure is at most kept; the results report all of it |
| AdasProps.PendingResultRetried | adas.cpp:658-663 | an empty result buffer changes nothing, so the same index is offered again |
| AdasProps.ResultsIdempotent | adas.cpp:1308-1336 | refreshing the results twice from the same zone is the same as once |
| AdasProps.ResultsCornersFromZone | adas.cpp:1317-1323 | with both far points off row 0, the reported corners are the zone's whatever came before; with either far point on row 0, the previously reported corners are kept |
| AdasProps.LaneDepartureNeverRaised | adas.cpp:1075-1099 | over any sequence of calls, neither the departure flag nor the logged `LDW` bit is ever switched on |
| AdasProps.NoLaneDepartureFromInit | adas.cpp:1057-1111 | from `_init` on, no frame ever reports LDW or LDW_FCW |
| AdasProps.FrameIndexInRange | adas.cpp:2090-2093 | the counter stays within 0..65535 over any sequence of calls |
| AdasProps.LoggedFramesCount | adas.cpp:605-737 | calls that all return true (`AllReturnTrue`, gated-out frames included) advance the counter once each |
| AdasProps.RunLogKeyedByNextIndex | adas.cpp:737-756 | the log `run` builds is keyed by the advanced index, not by the index the frame was processed under |
| AdasProps.RunLogKeepsEarlierFrames | adas.cpp:752-756 | the history keeps every other frame it read |
| AdasProps.CrowdedFrameLogFails | adas.cpp:743-756 | with detections logged, more than five humans in a frame make the log builder read past the five lists |
| AdasProps.NoHumansNoDetectionsLogged | adas.cpp:743-756 | with no human in the frame, the log has no detections for the frame at all |

## Left out

- Images, cropping, resizing, drawing, the spdlog and console output, timing, and saving debug images and logs are not modelled. They change no modelled field.
- The collaborators are answers in `FrameEnv`, not models. This covers YOLO, the post-processor, the lane-line fitter, FCW, LDW, the trackers, `rescaleBBox`, `rescaleLine` and `getArea`. Their side effects are not modelled: FCW's `setZone`, `setDetectLines` and `updateDataBuffer`, LDW's `enable`/`disable`, and the buffer removals.
- `isCarRightAheadCloserThanMeters` in `_objectDetection` only prints, so it is left out.
- The unscaled lane infos (`m_unscale_currLaneInfo`, `m_unscale_prevLaneInfo`) and the previous lane info are copies no modelled operation reads.
- Floating values are exact reals. `float` rounding of the focal ratio, the lane-width quotient and the distances is not modelled.
- `AdasPipeline.GeometryOf` requires a non-zero model height. With a zero height the C++ focal ratio is infinite or NaN.
- `AdasPipeline.Adas.Run` requires a non-zero frame step, because C++ `%` by zero is undefined.
- `AdasPipeline.Adas.Run` returns `Err` where `run` propagates the log builder's exception. The state changes made before the throw (the stages and the index update) stay, as in `run`; the exception's type and message are not modelled.
- The SAV837 build path and the `wnc` entry point are not part of this model.
- `_initROI` runs once in `_init`, so the ROI is a `const` of the class computed by `CenteredRoi`. Its `exit(1)` branch belongs to the SAV837 path only.
- `m_result` and the lane infos start as all zeros. The struct defaults are in headers that are not part of this model.
- Reading and writing the log file are left out. The file's parsed content is the parameter `prior` (`None` when it cannot be opened). The saved document is returned instead of written. Malformed JSON text in the file (a parse exception) is not modelled.
- Reading `boundingBoxLists[j]` past the five lists is undefined behaviour in C++. The model makes it the error `Err(UndefinedRead)`, which stops the builder.
- `AdasPipeline.Adas.Run` logs with `JsonLogString` as written, including the detection-loop bound below. Its properties therefore describe the behaviour as built. The corrected bound is defined and proved separately (`JsonLog.IntendedDetectionSection`).
- `GetJSONFile`, `SaveJsonLogFile` and the constructor of `JSON_LOG` are I/O or trivial accessors.

## Findings

| source | as written | input that shows it | evidently intended | confidence | as-written member | corrected member |
|---|---|---|---|---|---|---|
| json_log.cpp:654-663 | the frame's text goes into a second `frameIDJsonString` declared inside the `if`, which shadows the outer one, so the empty outer string is returned | a log file `{"frame_ID": {"7": {}}}` and target frame 7: the answer is the empty text, and the same for any other content of frame 7 | return the text of the frame's document | high; not executed | JsonLogProps.GetJsonValueByKeyLosesFrame | JsonLogProps.LoggedFrameReadsBack |
| json_log.cpp:88 | the outer detection loop is bounded by `boundingBoxLists->size()`, the number of boxes in the first list (humans), not the number of lists | `run` passes five lists; a frame with one vehicle and no human logs no detection, and a frame with six humans reads past the array | loop over the five lists, as the commented-out `sizeof` bounds at lines 87 and 89 try to | high; not executed | JsonLogProps.LoneVehicleNotLogged | JsonLogProps.IntendedDetectionsVisitAll |
