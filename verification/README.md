# Verification of the robot's deciding parts

Dafny models of the parts of this repository that decide things on their own, with proofs of what they promise.
`dafny verify dfyconfig.toml` checks the whole project.

Where the source changes state in place, so does the model: a class with the source's fields, an array sorted or
marked in place, a loop with its invariants. Each such method is proved against a function of the old state, and the
properties are lemmas about that function. Where threads, devices, processes or a network are involved, the model is
a set of atomic steps (one locked region, one read of a shared flag, one call into the world), and the lemmas speak
of every legal sequence of steps.

| files | what they model |
|---|---|
| `TrackingMath`, `FollowController`, `FollowSafety` | the Follow controller: target choice, control laws, callbacks, and its safety over every interleaving, with the dead-man bound |
| `PerceptionAgent` | the agent's perception actions driving that very controller through its two services |
| `BoxOverlap`, `Suppression`, `RankSort`, `Decoding`, `CornerColumns`, `Postprocess` | YOLOv6 post-processing from the three heads to the reported boxes |
| `BoundedQueues`, `DetectorPipeline` | the two drop-oldest queues, the two worker threads and the ordered shutdown |
| `ActionRegistry`, `ActionExecution`, `Interaction`, `ConversationMemory` | validation, execution and reconciliation of actions, the conversation around them and its memory |
| `LiveSpeech`, `VoiceSession` | continuous speech input: capture, receive and business threads around one sentence slot |
| `ProcText`, `ProcessMonitor`, `RegistryProtocol`, `RegistryLedger`, `RegistryLeases`, `MonitorClient` | the node registry: /proc parsing, identity keys, leases, tombstones, cleanup events, and the client |
| `Prelude`, `Scaling` | shared values, numeric conversions and the scaling of coordinates |

## Where the code falls short of a promise

Each of these is kept as the code has it, with the exact condition and a lemma that shows a failing case.

- Reported corners are stored in 16 bits. They are exact for all inputs if and only if
  `(modelSize - 1) * sourceSize < 65536 * modelSize` (`Postprocess.CornersExactIff`). Edges in order are reported in
  order, for all edges, if and only if with `rest = sourceSize % (65536 * modelSize)` either
  `(modelSize - 1) * rest < 65536 * modelSize` or `(modelSize - 1) * (65536 * modelSize - rest) <= modelSize`
  (`Postprocess.CornersOrderedIff`); the simpler comparison is enough for both
  (`Postprocess.ExactCornersKeepOrder`). `Postprocess.WideSourceSwapsCorners` is an example of a swap.
- The agent's memory stays true exactly as long as no handled request loses its answer in one of the ways of
  `PerceptionAgent.Betrays`: a fusion-off request that timed out under a remembered Follow, or an exception after the
  service had acted against a remembered value (`PerceptionAgent.SetStateAgreement`, and
  `PerceptionAgent.LostAnswerBetrays` for a case).
- The sentence slot is never overwritten while every reconcile turn pauses the input with the slot empty, which the
  voice node's own loop always does. A reconcile turn that pauses a full slot can lose that sentence if and only if
  the receive thread has not ended, the microphone is read, and neither input nor voice is closed
  (`VoiceSession.UntameTurnCanLoseExactlyWhileAlive`, and `VoiceSession.SentenceCanBeLostFromStart` for a run).
- A listen returns the sentence it has taken if and only if the receive thread has not failed by then; otherwise it
  raises and the sentence is gone (`VoiceSession.EverySentenceReachesTheCaller`, and
  `VoiceSession.DroppedSentenceIsReached` for a run).
- A turn that ends with the input open asks for a resume if and only if the voice is not closed by then; otherwise
  the input stays paused (`VoiceSession.ClosingVoiceLeavesInputPaused`, and `VoiceSession.ClosingTurnIsReached` for a
  run to such a turn).
- A terminated identity stays out of the registry in every run if and only if pruning recovers its process from its
  key and no identity of a process that could live at the same time has that key
  (`RegistryProtocol.ExactlyRecoverableDistinctStayOut`). Names and identifiers without NUL meet both; a NUL in the
  name defeats the tombstone (`RegistryProtocol.NulInNameIsRevived`).

## Model

| member | source | states |
|---|---|---|
| `TrackingMath.AngularCommand` | ros2_ws/src/object_track/include/object_track/tracking_math.hpp:56-64 | the angular command stays within its limit and turns towards the side the target is on |
| `TrackingMath.LinearCommand` | ros2_ws/src/object_track/include/object_track/tracking_math.hpp:139-149 | the linear command stays within its limit, is zero outside the range window, and drives towards the keep distance |
| `TrackingMath.NearestRangeIsNearest` | ros2_ws/src/object_track/include/object_track/tracking_math.hpp:126-136 | the running minimum is the one value that some point strictly inside the span has and no such point undercuts; no range exactly when no point is inside |
| `TrackingMath.NearestRangeInHorizontalSpan` | ros2_ws/src/object_track/include/object_track/tracking_math.hpp:126-136 | the loop computes that nearest range |
| `TrackingMath.TargetAmongIsTarget` | ros2_ws/src/object_track/src/object_track_node.cpp:103-127 | the running best is the first of the largest detections of the class above the minimum area, and the only such choice |
| `TrackingMath.SelectTarget` | ros2_ws/src/object_track/src/object_track_node.cpp:103-127 | the loop, with its own skips, computes that choice; an empty image has no target |
| `TrackingMath.BoxInLogicalPixels` | ros2_ws/src/object_track/src/object_track_node.cpp:91-100 | the box lies between the edges of the detection scaled by whole-number division to the 640 by 360 image |
| `TrackingMath.AreaInLogicalPixels` | ros2_ws/src/object_track/src/object_track_node.cpp:103-127 | the area compared with the minimum is width times height of that box, in the numbers of the detection and the image |
| `Scaling.ScaledIsQuotient` | ros2_ws/src/object_track/src/object_track_node.cpp:91-100 | scaling by a real ratio and truncating is multiplying first and dividing in whole numbers afterwards |
| `FollowController.ObjectTrackNode.SyncCallback` | ros2_ws/src/object_track/src/object_track_node.cpp:256-303 | a frame pair takes the tracker to the state of the frame step: target span kept, control law or stop, one emission while Follow runs |
| `FollowController.ObjectTrackNode.ScanCallback` | ros2_ws/src/object_track/src/object_track_node.cpp:306-333 | a scan replaces the points, restamps the age, clears the once-only flag, and revokes the command when no point is in the span |
| `FollowController.ObjectTrackNode.RevokeCommand` | ros2_ws/src/object_track/src/object_track_node.cpp:323-332 | the cached command is zeroed and a stop goes out only if it was nonzero while following |
| `FollowController.ObjectTrackNode.StopFollowWithoutFreshLidarScan` | ros2_ws/src/object_track/src/object_track_node.cpp:476-494 | points, range and cached command are cleared; an enabled Follow also sends a stop and notes whether the scan had expired |
| `FollowController.ObjectTrackNode.CheckLidarScanFreshness` | ros2_ws/src/object_track/src/object_track_node.cpp:464-504 | the timer stops an enabled Follow once per expired scan |
| `FollowController.ObjectTrackNode.ApplyLidarEnabled` | ros2_ws/src/object_track/src/object_track_node.cpp:336-376 | the fusion service: both guards, standby with a stop on switching off, and the reply |
| `FollowController.ObjectTrackNode.ApplyEnabled` | ros2_ws/src/object_track/src/object_track_node.cpp:419-461 | the Follow service: refusals, idempotence, a stop on every real switch, and the reply |
| `FollowController.ObjectTrackNode.PollLidarTransform` | ros2_ws/src/object_track/src/object_track_node.cpp:202-253 | TF polling ends with TF ready or at the deadline |
| `FollowSafety.RunKeepsInvariant` | ros2_ws/src/object_track/src/object_track_node.cpp:256-504 | every callback, in any interleaving under a clock that never goes back, keeps the gates, the honesty of the once-only flag and the scan time |
| `FollowSafety.NonzeroOnlyWhileFollowing` | ros2_ws/src/object_track/src/object_track_node.cpp:256-504 | over every run: a nonzero latest command means Follow is on and it equals the cached pair; Follow on means fusion, TF, inputs and a scan |
| `FollowSafety.MovingSinceCheck` | ros2_ws/src/object_track/src/object_track_node.cpp:484-504 | a nonzero command that outlived a freshness check was backed by a scan fresh at that check |
| `FollowSafety.DeadManBound` | ros2_ws/src/object_track/src/object_track_node.cpp:464-504 | with a check within the last period, a nonzero command is the latest output no later than timeout plus period after the last scan, frames or no frames |
| `FollowSafety.DeadManBoundIsMet` | ros2_ws/src/object_track/src/object_track_node.cpp:464-504 | for every timeout and period some run of a timer that checks whenever it is due reaches that bound exactly, just as the next check falls due |
| `FollowSafety.ExpiredCheckStops` | ros2_ws/src/object_track/src/object_track_node.cpp:473-504 | a check after expiry leaves a stop as the latest output: the once-only flag never suppresses a needed stop |
| `FollowSafety.SourceScanIsLatest` | ros2_ws/src/object_track/src/object_track_node.cpp:306-333 | between the scan in use and now, no other scan was taken in and neither Follow nor fusion switched |
| `FollowSafety.PointsComeFromSource` | ros2_ws/src/object_track/src/object_track_node.cpp:306-376 | points in use are those of that scan and of its time; a cleared scan never comes back |
| `FollowSafety.FrameJustified` | ros2_ws/src/object_track/src/object_track_node.cpp:256-303 | a nonzero result names one target of this very frame and one nearest point, and is the control law of the two |
| `FollowSafety.TargetInRangeIsFollowed` | ros2_ws/src/object_track/src/object_track_node.cpp:256-303 | a frame with a target in range: the cached command is gain times (320 minus the midpoint of the two scaled edges) and gain times (distance minus keep distance), each up to its limit, zero outside the window, and an enabled Follow sends exactly this command |
| `FollowSafety.TurnsTowardsTheMidpoint` | ros2_ws/src/object_track/src/object_track_node.cpp:287-292 | with positive gain and limit the turn is to the side of 320 on which that midpoint lies, and there is none exactly when it lies on 320 |
| `FollowSafety.NothingToFollowStops` | ros2_ws/src/object_track/src/object_track_node.cpp:264-300 | without a target, or without a point in its span, the cached command is zero and an enabled Follow is sent a stop |
| `FollowSafety.StaleFrameStops` | ros2_ws/src/object_track/src/object_track_node.cpp:271-285 | a frame without fusion, TF or a fresh scan drops points and command and sends an enabled Follow a stop |
| `FollowSafety.FrameRemembersTheSpan` | ros2_ws/src/object_track/src/object_track_node.cpp:264-270 | the span used for later scans is that of the target of the frame, or empty |
| `FollowSafety.ScanIsTakenIn` | ros2_ws/src/object_track/src/object_track_node.cpp:306-333 | a scan taken in restamps the age, replaces the points and the nearest range, and sends nothing but the one stop when a moving Follow has lost its range |
| `FollowSafety.FollowSwitches` | ros2_ws/src/object_track/src/object_track_node.cpp:419-461 | over every run Follow goes on exactly when a frame has been seen and a scan within the timeout has been taken in since fusion went on, and it always goes off; every switch starts from a stop and without old points |
| `FollowSafety.FramesMakeInputsReady` | ros2_ws/src/object_track/src/object_track_node.cpp:256-262 | over every run the inputs are ready exactly when a frame has been delivered |
| `FollowSafety.FusionSwitches` | ros2_ws/src/object_track/src/object_track_node.cpp:336-376 | fusion goes on exactly when TF can be had and a scan publisher is there, always goes off, and takes Follow and the old scan with it |
| `FollowSafety.TransformIsPolled` | ros2_ws/src/object_track/src/object_track_node.cpp:202-253 | polling ends with TF found or at the deadline and never starts again; TF once found stays |
| `FollowSafety.CommandProvenance` | ros2_ws/src/object_track/src/object_track_node.cpp:256-303 | every nonzero command ever sent is the control law of its frame's target and of the latest scan since the last switch, fresh, and within both speed limits |
| `FollowSafety.DryRunNeverPublishes` | ros2_ws/src/object_track/src/object_track_node.cpp:507-510 | every emission of a run is a preview in a dry run and a publication otherwise |
| `PerceptionAgent.SetStateAgreement` | ros2_ws/src/robot_agent/robot_agent/actions/perception.py:64-78 | after one request the memory agrees with the tracker exactly unless the request was handled and its answer lost in one of the stated ways (`Betrays`) |
| `PerceptionAgent.ConfirmedMeansSet` | ros2_ws/src/robot_agent/robot_agent/actions/perception.py:64-78 | a confirmed request leaves its flag in the tracker as requested |
| `PerceptionAgent.RequestIsTold` | ros2_ws/src/robot_agent/robot_agent/actions/perception.py:64-78 | what one request sends, what it answers and what is remembered of it, for a success, any other receipt, no answer and an exception; switching off is never refused |
| `PerceptionAgent.OwnCallbacksKeepFlags` | ros2_ws/src/object_track/src/object_track_node.cpp:244-333 | frames, scans and timers of the tracker never switch Follow or fusion |
| `PerceptionAgent.ActionAgreement` | ros2_ws/src/robot_agent/robot_agent/actions/perception.py:34-164 | every action of the agent keeps memory and tracker in agreement as long as none of its requests betrays it |
| `PerceptionAgent.AgentRefinesTracker` | ros2_ws/src/robot_agent/robot_agent/actions/perception.py:34-164 | the same over any sequence of actions, harmless lost answers included: remembered values are unknown or true, and so is the standby implied by fusion off |
| `PerceptionAgent.AnsweredIsNeverBetrayed` | ros2_ws/src/robot_agent/robot_agent/actions/perception.py:34-164 | an agent that gets an answer to every request is never betrayed |
| `PerceptionAgent.LostAnswerBetrays` | ros2_ws/src/robot_agent/robot_agent/actions/perception.py:64-78 | a run of the tracker and a lost fusion-off answer after which the agent is wrong |
| `PerceptionAgent.StartOrder` | ros2_ws/src/robot_agent/robot_agent/actions/perception.py:88-122 | Follow on is sent only as the third request, after the camera, after fusion was confirmed and read before the deadline, with the tracker's fusion on |
| `PerceptionAgent.StartSucceeds` | ros2_ws/src/robot_agent/robot_agent/actions/perception.py:88-122 | starting succeeds exactly if camera, fusion and Follow were requested in this order and both services confirmed; Follow and fusion are then on and remembered so; each early end has its cause |
| `PerceptionAgent.StopSucceeds` | ros2_ws/src/robot_agent/robot_agent/actions/perception.py:132-153 | stopping succeeds exactly if standby and then fusion off were requested and confirmed; both are then off and remembered so; each early end has its cause |
| `PerceptionAgent.CameraOffSucceeds` | ros2_ws/src/robot_agent/robot_agent/actions/perception.py:38-55 | the same for the camera, which goes off exactly after a confirmed standby |
| `PerceptionAgent.ActionsDoWhatTheySay` | ros2_ws/src/robot_agent/robot_agent/actions/perception.py:34-164 | each of the nine actions, when it succeeds, has done in the tracker or to the camera what its name says |
| `PerceptionAgent.CameraOffOrder` | ros2_ws/src/robot_agent/robot_agent/actions/perception.py:38-55 | camera off is sent only after standby was confirmed in time, and then the tracker is in standby |
| `PerceptionAgent.ToggleSwitches` | ros2_ws/src/robot_agent/robot_agent/actions/perception.py:155-164 | a successful toggle switches the tracker's Follow: a remembered Follow is stopped, a remembered standby started, and with Follow unknown nothing is sent |
| `PerceptionAgent.RosPerception.SetEnabled` | ros2_ws/src/robot_agent/robot_agent/ros/perception.py:50-76 | one request against the real node object: readiness, deadline, submission, service and receipt |
| `PerceptionAgent.PerceptionActions.SetStateOn` | ros2_ws/src/robot_agent/robot_agent/actions/perception.py:64-78 | the memory update of one request, with the implied standby |
| `PerceptionAgent.PerceptionActions.StartFollowing` | ros2_ws/src/robot_agent/robot_agent/actions/perception.py:88-122 | the flow with its early returns reaches the specified world |
| `PerceptionAgent.PerceptionActions.StopFollowing` | ros2_ws/src/robot_agent/robot_agent/actions/perception.py:132-153 | the same for stopping |
| `PerceptionAgent.PerceptionActions.StopCamera` | ros2_ws/src/robot_agent/robot_agent/actions/perception.py:38-55 | the same for the camera |
| `PerceptionAgent.PerceptionActions.ToggleFollowing` | ros2_ws/src/robot_agent/robot_agent/actions/perception.py:155-164 | the same for the toggle |
| `BoxOverlap.OverlapSymmetric` | ros2_ws/src/rknn_yolov6/src/postprocess.cpp:15-21 | the overlap score does not depend on the order of the boxes |
| `BoxOverlap.OverlapRange` | ros2_ws/src/rknn_yolov6/src/postprocess.cpp:15-21 | for boxes of nonnegative size the score lies in [0, 1] and is 1 for identical boxes only |
| `BoxOverlap.OverlapZero` | ros2_ws/src/rknn_yolov6/src/postprocess.cpp:15-21 | it is 0 exactly when the boxes are a pixel or more apart in some direction |
| `BoxOverlap.OverlapOfUnion` | ros2_ws/src/rknn_yolov6/src/postprocess.cpp:15-21 | the score times the union is the intersection, the union being the two areas less the intersection; a union that is not positive scores 0 |
| `BoxOverlap.SidesInPixels` | ros2_ws/src/rknn_yolov6/src/postprocess.cpp:15-21 | for whole corners, sides and shared sides are counted in pixels, both ends included |
| `Suppression.Nms` | ros2_ws/src/rknn_yolov6/src/postprocess.cpp:24-50 | the nested loops leave exactly the survivors of the greedy rule unmarked and touch nothing else |
| `Suppression.SurvivorsKeepApart` | ros2_ws/src/rknn_yolov6/src/postprocess.cpp:24-50 | two survivors overlap at most the threshold |
| `Suppression.SuppressorSurvives` | ros2_ws/src/rknn_yolov6/src/postprocess.cpp:24-50 | a suppressed entry has an earlier survivor overlapping it above the threshold |
| `Suppression.GreedySelectionIsUnique` | ros2_ws/src/rknn_yolov6/src/postprocess.cpp:24-50 | any selection that obeys the greedy rule is the set of survivors |
| `RankSort.FillHole` | ros2_ws/src/rknn_yolov6/src/postprocess.cpp:60-74 | copying an entry into the hole moves the hole: with the pivot filled in, the range is a rearrangement of what it was |
| `RankSort.Partition` | ros2_ws/src/rknn_yolov6/src/postprocess.cpp:53-75 | the two scans leave the pivot with nothing smaller left of it and nothing greater right of it, pairs moved together, nothing outside touched |
| `RankSort.QuickSortIndiceInverse` | ros2_ws/src/rknn_yolov6/src/postprocess.cpp:53-79 | the sort ends, orders the range downwards, permutes score and index together and touches nothing outside the range |
| `RankSort.RankingNamesCandidates` | ros2_ws/src/rknn_yolov6/src/postprocess.cpp:191-196 | after ranking from the identity order, rank k holds the original score of the candidate it names and every candidate is named once |
| `RankSort.SortedAroundPivot` | ros2_ws/src/rknn_yolov6/src/postprocess.cpp:76-78 | sorting both sides of a pivot sorts the range |
| `RankSort.DistinctStayDistinct` | ros2_ws/src/rknn_yolov6/src/postprocess.cpp:191-196 | rearranging pairwise different entries keeps them different |
| `Decoding.BestClassIsFirstBest` | ros2_ws/src/rknn_yolov6/src/postprocess.cpp:109-122 | the class picked has the highest score, and the first such class wins |
| `Decoding.HeadIsSound` | ros2_ws/src/rknn_yolov6/src/postprocess.cpp:98-143 | every candidate found is the decoded box, with the best class, of its own cell, which passes both thresholds; cells come in scan order |
| `Decoding.HeadIsComplete` | ros2_ws/src/rknn_yolov6/src/postprocess.cpp:98-143 | every cell that passes has its candidate |
| `Decoding.HeadIsExact` | ros2_ws/src/rknn_yolov6/src/postprocess.cpp:98-143 | found are exactly the cells with objectness (plane 4) and best class at the threshold, each with the edges that planes 0 to 3 of the buffer give in the order left, top, right, bottom, and with the first best class and its score |
| `Decoding.SpreadEdgesInOrder` | ros2_ws/src/rknn_yolov6/src/postprocess.cpp:123-138 | edges are in order when opposite edge distances sum to at least zero |
| `Decoding.ProcessCell` | ros2_ws/src/rknn_yolov6/src/postprocess.cpp:98-139 | one cell appends its candidate to the parallel vectors, or nothing |
| `Decoding.ProcessFloat` | ros2_ws/src/rknn_yolov6/src/postprocess.cpp:85-145 | the loops append exactly the candidates of the head to what the vectors held, and count them |
| `Postprocess.CornersExactIff` | ros2_ws/src/rknn_yolov6/src/postprocess.cpp:211-214 | the 16-bit corners equal the scaled corners for all inputs exactly when the last model column maps below 65536 |
| `Postprocess.ExactCornersKeepOrder` | ros2_ws/src/rknn_yolov6/src/postprocess.cpp:211-214 | that simpler comparison is enough for corners in order as well |
| `Postprocess.CornersOrderedIff` | ros2_ws/src/rknn_yolov6/src/postprocess.cpp:211-214 | for all sizes: every pair of edges in order is reported in order if and only if the stated comparison of the two sizes holds |
| `CornerColumns.ColumnsOrderedIff` | ros2_ws/src/rknn_yolov6/src/postprocess.cpp:211-214 | the same for the model columns in whole numbers, with whole turns of 65536 left out |
| `Postprocess.ScaledPixelIsQuotient` | ros2_ws/src/rknn_yolov6/src/postprocess.cpp:211-214 | scaling a pixel by the real quotient and truncating is whole-number division |
| `Postprocess.EveryCellIsACandidate` | ros2_ws/src/rknn_yolov6/src/postprocess.cpp:165-190 | every cell of a head that passes both thresholds is among the candidates that are ranked |
| `Postprocess.ReportedEdgesInOrder` | ros2_ws/src/rknn_yolov6/src/postprocess.cpp:199-225 | every reported detection is that of one cell of one head: x1, y1, x2, y2 are the left, top, right and bottom edge of the cell's box in source pixels, with confidence, label and number of its best class, and in order when the cell's edge distances sum to at least zero and the two sizes keep order |
| `Postprocess.TakenRanksExact` | ros2_ws/src/rknn_yolov6/src/postprocess.cpp:24-50 | the taken ranks are exactly those that overlap no earlier taken rank above the threshold |
| `Postprocess.SuppressorScoresHigher` | ros2_ws/src/rknn_yolov6/src/postprocess.cpp:193-197 | a rank left out has a taken suppressor of at least its score |
| `Postprocess.SurvivesIsTaken` | ros2_ws/src/rknn_yolov6/src/postprocess.cpp:24-50 | suppression on the flat box vector takes exactly the greedy selection on candidates |
| `Postprocess.ReportedFacts` | ros2_ws/src/rknn_yolov6/src/postprocess.cpp:199-225 | at most 100 detections, confidences nonincreasing and not below the threshold, corners inside the source, taken boxes pairwise at most the threshold apart |
| `Postprocess.YoloV6Postprocessor.Create` | ros2_ws/src/rknn_yolov6/src/postprocess.cpp:149-162 | construction is refused exactly for a nonpositive model size or no labels |
| `Postprocess.YoloV6Postprocessor.Rank` | ros2_ws/src/rknn_yolov6/src/postprocess.cpp:191-196 | sorting the scores with the identity order yields a ranking of all candidates |
| `Postprocess.YoloV6Postprocessor.Report` | ros2_ws/src/rknn_yolov6/src/postprocess.cpp:199-225 | the last loop reports exactly the taken ranks among the first 100 |
| `Postprocess.YoloV6Postprocessor.Process` | ros2_ws/src/rknn_yolov6/src/postprocess.cpp:165-228 | end to end: refused exactly for an empty source or a missing head, and otherwise the greedy selection of a ranking of all candidates of the three heads, each detection led back to its cell with its corners in order |
| `BoundedQueues.BoundedQueue.Push` | ros2_ws/src/rknn_yolov6/include/rknn_yolov6/bounded_queue.hpp:21-34 | a closed queue hands the value back, a full one gives up its oldest |
| `BoundedQueues.BoundedQueue.WaitAndPop` | ros2_ws/src/rknn_yolov6/include/rknn_yolov6/bounded_queue.hpp:37-46 | the oldest item, or nothing once closed and drained |
| `BoundedQueues.HoldsNewest` | ros2_ws/src/rknn_yolov6/include/rknn_yolov6/bounded_queue.hpp:21-54 | over every history the contents are the newest accepted values without a gap, within capacity |
| `BoundedQueues.LeavesInOrder` | ros2_ws/src/rknn_yolov6/include/rknn_yolov6/bounded_queue.hpp:21-54 | over every history, what has left the queue and what it still holds are together what it accepted, in order and each once |
| `BoundedQueues.RoomDisplacesNothing` | ros2_ws/src/rknn_yolov6/include/rknn_yolov6/bounded_queue.hpp:21-34 | a push into an open queue with room displaces nothing |
| `DetectorPipeline.RunKeepsInvariant` | ros2_ws/src/rknn_yolov6/src/rknn_yolov6_node.cpp:146-177 | every step of the two threads, the arrivals and the destructor keeps coordination, order, conservation and newest-suffix |
| `DetectorPipeline.FramesConserved` | ros2_ws/src/rknn_yolov6/src/rknn_yolov6_node.cpp:146-177 | over every run each accepted frame is in exactly one place, no other frame is anywhere, each queue holds the newest of what it was given within capacity, and published frames keep arrival order |
| `DetectorPipeline.ResultsAreNeverRefused` | ros2_ws/src/rknn_yolov6/src/rknn_yolov6_node.cpp:159-177 | a finished inference never meets a closed output queue, so only a newer result can displace one |
| `DetectorPipeline.SuccessDecides` | ros2_ws/src/rknn_yolov6/src/rknn_yolov6_node.cpp:146-177 | over every run, put on the output queue are exactly the frames whose inference succeeded, and given up as failed exactly those whose inference failed; each result is queued, in hand, published or displaced |
| `DetectorPipeline.MovesHaveACause` | ros2_ws/src/rknn_yolov6/src/rknn_yolov6_node.cpp:146-177 | a frame is displaced only from a full queue, discarded only while stopping, and published exactly when its processing finishes |
| `DetectorPipeline.ShutdownIsClean` | ros2_ws/src/rknn_yolov6/src/rknn_yolov6_node.cpp:62-74 | after the destructor both threads have ended, the output is drained and every accepted frame is accounted for |
| `DetectorPipeline.ShutdownProgresses` | ros2_ws/src/rknn_yolov6/src/rknn_yolov6_node.cpp:62-74 | until the destructor is through, it or a thread can move |
| `DetectorPipeline.ShutdownIsBounded` | ros2_ws/src/rknn_yolov6/src/rknn_yolov6_node.cpp:62-74 | after closing the input, the threads and the destructor take a bounded number of steps under every schedule and any arrivals |
| `ActionRegistry.Normalised` | ros2_ws/src/robot_agent/robot_agent/actions/registry.py:98-114 | only the four device outcomes pass through; anything else is an unknown outcome, and none says not executed |
| `ActionRegistry.CheckedIsAllOrNothing` | ros2_ws/src/robot_agent/robot_agent/actions/registry.py:73-82 | the texts give a list exactly when every one is accepted, one command per text and in order |
| `ActionRegistry.FirstRefusedDecides` | ros2_ws/src/robot_agent/robot_agent/actions/registry.py:73-82 | the first text that is not accepted decides between a refused list and a broken check |
| `ActionRegistry.Validate` | ros2_ws/src/robot_agent/robot_agent/actions/registry.py:73-82 | the loop computes that: all or nothing, at most 64, and the first text not accepted decides between a refusal and a broken check |
| `ActionExecution.TurnFacts` | ros2_ws/src/robot_agent/robot_agent/actions/execution.py:141-185 | whatever the device hands back, a turn submits a prefix of its list in order, each once, and its outcomes are successes, then at most one failed or unknown, then not executed |
| `ActionExecution.ExecuteKeepsValid` | ros2_ws/src/robot_agent/robot_agent/actions/execution.py:70-94 | executing keeps at most one call in flight and blocks exactly when an outcome is unknown |
| `ActionExecution.TurnIsTold` | ros2_ws/src/robot_agent/robot_agent/actions/execution.py:70-205 | from the texts the device returned: the turn stops at the first answer that is no success and is completed exactly when there is none; every outcome and every call carries status, detail and data of its own answer; it blocks exactly when it stopped at an unknown outcome |
| `ActionExecution.ReconcileFacts` | ros2_ws/src/robot_agent/robot_agent/actions/execution.py:96-139 | rejected exactly without a matching record; failed and unchanged without a confirmed receipt; otherwise the one unknown outcome takes status, detail and data of its receipt, nothing is submitted, and the turn is completed exactly when the receipt is a success and the turn had stopped at its last command |
| `ActionExecution.ActionExecutor.ExecuteOne` | ros2_ws/src/robot_agent/robot_agent/actions/execution.py:141-185 | the pessimistic record, the submission, the wait and the pending record for one command |
| `ActionExecution.ActionExecutor.ExecuteActions` | ros2_ws/src/robot_agent/robot_agent/actions/execution.py:141-185 | the loop over the shared outcome array reaches exactly the specified trace |
| `ActionExecution.ActionExecutor.Execute` | ros2_ws/src/robot_agent/robot_agent/actions/execution.py:70-94 | the result copies the outcomes, while the pending record shares the array |
| `ActionExecution.ActionExecutor.Report` | ros2_ws/src/robot_agent/robot_agent/actions/execution.py:187-205 | completed exactly when every outcome in the array is a success, failed otherwise, with a copy of the array |
| `ActionExecution.ActionExecutor.Reconcile` | ros2_ws/src/robot_agent/robot_agent/actions/execution.py:96-139 | the late receipt is written into the pending array; results returned earlier are copies and stay as they were |
| `Interaction.SubmitIsSafe` | ros2_ws/src/robot_agent/robot_agent/conversation/interaction.py:80-146 | a submit keeps the invariant; new calls belong to its own turn and, in order, to texts of a list accepted as a whole, from an agent that was idle |
| `Interaction.NeverRepeatsOrOverlaps` | ros2_ws/src/robot_agent/robot_agent/conversation/interaction.py:80-146 | over every run no command is submitted twice or out of order, at most one device call is in flight, and a pending record has one unknown outcome |
| `Interaction.InvalidListSubmitsNone` | ros2_ws/src/robot_agent/robot_agent/conversation/interaction.py:124-132 | one text that is not accepted, more than 64 texts, or no list at all: the device is never called and the memory stays |
| `Interaction.NoReplySubmitsNone` | ros2_ws/src/robot_agent/robot_agent/conversation/interaction.py:80-122 | the same for a busy agent, an unusable text and a failed model call |
| `Interaction.RefusalsAreTold` | ros2_ws/src/robot_agent/robot_agent/conversation/interaction.py:80-132 | busy exactly while an outcome is unknown or a model call runs; otherwise the first obstacle decides: unusable text, failed model call, no list, or the first text not accepted |
| `Interaction.AgreedListIsDone` | ros2_ws/src/robot_agent/robot_agent/conversation/interaction.py:124-146 | a list accepted as a whole is acted on and answered as its device answers tell, and the exchange, text and reply, is in the memory or left to the update that goes on, unless waiting for a call broke down |
| `Interaction.LateReceiptSettles` | ros2_ws/src/robot_agent/robot_agent/actions/execution.py:96-139 | a call that ends late lets a reconcile of its turn unblock the agent exactly if it handed back a success or a failure |
| `Interaction.ClearForgets` | ros2_ws/src/robot_agent/robot_agent/conversation/interaction.py:148-162 | clearing is refused exactly while a model call runs, and otherwise leaves nothing, completed exactly if it was saved |
| `Interaction.MemoryHasOneWriter` | ros2_ws/src/robot_agent/robot_agent/conversation/interaction.py:148-178 | only the running call writes the memory: the caller while no model call of its own runs, otherwise the running update, exchange first and summary after |
| `Interaction.LateUpdateIsTheSame` | ros2_ws/src/robot_agent/robot_agent/conversation/interaction.py:164-178 | an update the caller gave up on leaves the memory that one it waited for leaves |
| `Interaction.LateReplyIsDropped` | ros2_ws/src/robot_agent/robot_agent/conversation/interaction.py:80-122 | a reply that comes after the caller gave up changes neither memory nor device and leaves the agent free |
| `Interaction.ClearedStaysEmpty` | ros2_ws/src/robot_agent/robot_agent/conversation/interaction.py:148-162 | once cleared, the memory stays empty until another submit: no older summary is written back |
| `Interaction.OnlineInteraction.Submit` | ros2_ws/src/robot_agent/robot_agent/conversation/interaction.py:80-146 | the whole turn with its early returns, validation of the function texts included, reaches the specified agent and result |
| `Interaction.OnlineInteraction.Act` | ros2_ws/src/robot_agent/robot_agent/conversation/interaction.py:133-146 | executing the validated list and remembering the exchange, unless the execution was aborted |
| `Interaction.OnlineInteraction.Remember` | ros2_ws/src/robot_agent/robot_agent/conversation/interaction.py:164-178 | the update ends in time, or stays behind as the running model call |
| `Interaction.OnlineInteraction.ProviderAppends` | ros2_ws/src/robot_agent/robot_agent/conversation/interaction.py:164-178 | an update left behind puts its exchange into the recent list |
| `Interaction.OnlineInteraction.ProviderEnds` | ros2_ws/src/robot_agent/robot_agent/conversation/interaction.py:164-178 | and later brings its summary, or fails to |
| `Interaction.OnlineInteraction.ClearMemory` | ros2_ws/src/robot_agent/robot_agent/conversation/interaction.py:148-162 | refused while a model call runs; otherwise the memory is cleared, saved or not |
| `Interaction.OnlineInteraction.Reconcile` | ros2_ws/src/robot_agent/robot_agent/conversation/interaction.py:187-189 | goes straight to the execution |
| `ConversationMemory.RunShape` | ros2_ws/src/robot_agent/robot_agent/conversation/memory.py:77-114 | the failed tries since the last reset are one per exchange from the trigger on, each showing the newest ones |
| `ConversationMemory.RecentIsSuffix` | ros2_ws/src/robot_agent/robot_agent/conversation/memory.py:83-84 | the recent list is the newest part of what was recorded since the last summary or clear, within its limit |
| `ConversationMemory.MemoryIsUpToDate` | ros2_ws/src/robot_agent/robot_agent/conversation/memory.py:77-125 | over every run, computed from the operations alone: the summary is the text of the latest usable try that came with enough exchanges, unless cleared, and the recent list is the newest of what was recorded since |
| `ConversationMemory.NoticesAreTold` | ros2_ws/src/robot_agent/robot_agent/conversation/memory.py:77-114 | a notice from the start is handed out first; a failed summary or save is told exactly when it happened |
| `ConversationMemory.CoveringCount` | ros2_ws/src/robot_agent/robot_agent/conversation/memory.py:83-104 | how many failed tries showed the exchange at a given position, in closed form |
| `ConversationMemory.PushedOutWasOffered` | ros2_ws/src/robot_agent/robot_agent/conversation/memory.py:83-104 | an exchange that the limit pushed out was shown to exactly min(recent, k + recent - trigger + 1) failed tries, never fewer than recent - trigger + 1 |
| `ConversationMemory.SummarySurvivesRestart` | ros2_ws/src/robot_agent/robot_agent/conversation/memory.py:38-59 | the summary never outgrows its limit, so loading what was saved finds it again |
| `ConversationMemory.Conversation.Append` | ros2_ws/src/robot_agent/robot_agent/conversation/memory.py:77-84 | the exchange joins the list at once and the list is cut |
| `ConversationMemory.Conversation.Summarise` | ros2_ws/src/robot_agent/robot_agent/conversation/memory.py:85-114 | summarise or not, save or not, with the notices |
| `ConversationMemory.Conversation.Record` | ros2_ws/src/robot_agent/robot_agent/conversation/memory.py:77-114 | the two together |
| `ConversationMemory.Conversation.Clear` | ros2_ws/src/robot_agent/robot_agent/conversation/memory.py:116-125 | everything forgotten, with the notice of a failed save |
| `LiveSpeech.LiveSpeechInput.Capture` | ros2_ws/src/robot_agent/robot_agent/voice/live_input.py:105-122 | the locked region of the capture thread: process a resume, skip, send the frame or silence, or note the failure |
| `LiveSpeech.LiveSpeechInput.Accept` | ros2_ws/src/robot_agent/robot_agent/voice/live_input.py:198-223 | the locked region of the receive thread: pause, acceptance position and blank text are checked before the slot is filled |
| `LiveSpeech.LiveSpeechInput.Listen` | ros2_ws/src/robot_agent/robot_agent/voice/live_input.py:62-79 | taking the sentence empties the slot |
| `LiveSpeech.LiveSpeechInput.Pause` | ros2_ws/src/robot_agent/robot_agent/voice/live_input.py:81-85 | pausing withdraws an outstanding resume request |
| `LiveSpeech.LiveSpeechInput.Resume` | ros2_ws/src/robot_agent/robot_agent/voice/live_input.py:87-91 | a resume is only requested, and only of an open input |
| `VoiceSession.RunKeepsAudio` | ros2_ws/src/robot_agent/robot_agent/voice/live_input.py:93-149 | every step keeps the backlog fresh, the sample count true, and, while unpaused, all audio from the acceptance position on real |
| `VoiceSession.RealFramesAreFresh` | ros2_ws/src/robot_agent/robot_agent/voice/live_input.py:93-122 | in every interleaving each real frame sent arrived, hence was read, after the last processed resume |
| `VoiceSession.SentencesComeFromLiveAudio` | ros2_ws/src/robot_agent/robot_agent/voice/live_input.py:198-223 | an accepted sentence is not blank and begins at or after the acceptance position, and every frame of its connection from that position on is real audio that arrived after the last resume |
| `VoiceSession.AcceptedExactly` | ros2_ws/src/robot_agent/robot_agent/voice/live_input.py:198-223 | in every state, a sentence is accepted if and only if the input is not paused, it begins at or after the acceptance position and is not blank; it then fills the slot, pauses the input and joins the accepted ones; any other event changes nothing |
| `VoiceSession.FrameIsUsed` | ros2_ws/src/robot_agent/robot_agent/voice/live_input.py:93-122 | what becomes of each frame read: dropped with the backlog by a resume that sets the acceptance position to the end of what was sent, skipped, sent as itself or as silence, or not sent |
| `VoiceSession.AResumeSeparatesSentences` | ros2_ws/src/robot_agent/robot_agent/voice/live_input.py:105-122 | between any two accepted sentences a resume was processed, whatever the caller does |
| `VoiceSession.SlotIsNeverOverwritten` | ros2_ws/src/robot_agent/robot_agent/voice/session.py:196-216 | with turns that pause an empty slot: accepted sentences are taken once and in order, none is accepted inside a turn, and back at listen a paused open input has been asked to resume |
| `VoiceSession.EverySentenceReachesTheCaller` | ros2_ws/src/robot_agent/robot_agent/voice/live_input.py:62-79 | accepted sentences are those delivered, the one in hand and the one in the slot; the one in hand is returned exactly if the receive thread has not failed, and otherwise the caller ends without it |
| `VoiceSession.EndedGetsNothing` | ros2_ws/src/robot_agent/robot_agent/ros/voice_node.py:75-97 | a caller that has ended is given nothing any more |
| `VoiceSession.DroppedSentenceIsReached` | ros2_ws/src/robot_agent/robot_agent/voice/live_input.py:62-79 | a run of the listening loop that ends with a sentence dropped by a listen that raised |
| `VoiceSession.SentenceCanBeLostFromStart` | ros2_ws/src/robot_agent/robot_agent/voice/session.py:286-294 | a run from the start in which a reconcile turn loses a sentence |
| `VoiceSession.ClosingTurnIsReached` | ros2_ws/src/robot_agent/robot_agent/voice/session.py:205-216 | a run of the listening loop to a turn that ends while the voice is closed and the input open |
| `VoiceSession.ListeningLoopIsTame` | ros2_ws/src/robot_agent/robot_agent/ros/voice_node.py:75-97 | the voice node's loop, which only listens and runs one turn per sentence, meets that condition in every run |
| `VoiceSession.UntameTurnCanLoseASentence` | ros2_ws/src/robot_agent/robot_agent/voice/session.py:286-294 | a reconcile turn that pauses a full slot, with the connection up, can be followed by steps that overwrite the untaken sentence |
| `VoiceSession.UntameTurnCanLoseExactlyWhileAlive` | ros2_ws/src/robot_agent/robot_agent/voice/session.py:286-294 | such a turn can lose the sentence if and only if the receive thread has not ended, the microphone is read, and input and voice are open |
| `VoiceSession.ClosingVoiceLeavesInputPaused` | ros2_ws/src/robot_agent/robot_agent/voice/session.py:205-216 | any turn of any tame run that ends with the input open: it asks for a resume if and only if the voice is not closed by then; if it is, the input stays paused for good |
| `VoiceSession.Deliver` | ros2_ws/src/robot_agent/robot_agent/voice/live_input.py:62-223 | every step of the system is one method of the input object |
| `VoiceSession.ReconnectsAreBounded` | ros2_ws/src/robot_agent/robot_agent/voice/live_input.py:124-180 | without an accepted sentence, no more connections fail than are configured |
| `VoiceSession.KeepsRetrying` | ros2_ws/src/robot_agent/robot_agent/voice/live_input.py:124-180 | fewer failures than configured never end the input, as long as nobody closes it and capturing goes on |
| `VoiceSession.RunEndsClosed` | ros2_ws/src/robot_agent/robot_agent/voice/live_input.py:124-196 | over every run a failure ends the receive thread, and a receive thread that has ended leaves the input closed |
| `ProcText.Split` | ros2_ws/src/monitor/src/monitor/process_monitor.cpp:16-24 | the reading loop yields the words of the text |
| `ProcText.WordsRoundTrip` | ros2_ws/src/monitor/src/monitor/process_monitor.cpp:16-24 | splitting printed words gives them back |
| `ProcText.WordsSplitAtSpace` | ros2_ws/src/monitor/src/monitor/process_monitor.cpp:16-24 | any white space separates the words before it from those after it, whatever the texts |
| `ProcText.DecimalRoundTrip` | ros2_ws/src/monitor/src/monitor/process_monitor.cpp:32-40 | reading the digits of a printed number gives it back |
| `ProcText.DecimalIsRead` | ros2_ws/src/monitor/src/monitor/process_monitor.cpp:98-99 | the two library conversions read a printed number back if it is in range and refuse it otherwise |
| `ProcText.NegativeIsRead` | ros2_ws/src/monitor/src/monitor/process_monitor.cpp:98-99 | with a minus sign the unsigned conversion gives the complement to 2^64 and the signed one the negative number, within their ranges |
| `ProcText.NumberIsScanned` | ros2_ws/src/monitor/src/monitor/process_monitor.cpp:32-40 | space, a sign, digits and then anything else: the number is that of digits and sign |
| `ProcText.ScannedHasDigits` | ros2_ws/src/monitor/src/monitor/process_monitor.cpp:32-40 | whatever is read as a number has that form |
| `ProcText.ParseProcStatLine` | ros2_ws/src/monitor/src/monitor/process_monitor.cpp:42-60 | the parser with its early returns computes the parse of the line |
| `ProcText.ReadProcessIdentity` | ros2_ws/src/monitor_client/src/monitor_registration.cpp:50-78 | the same for the client's parser |
| `ProcText.TailIsParsed` | ros2_ws/src/monitor/src/monitor/process_monitor.cpp:42-60 | only what follows the last closing parenthesis is split into fields, and there has to be an opening one before it and something after it |
| `ProcText.StatRoundTrip` | ros2_ws/src/monitor/src/monitor/process_monitor.cpp:42-60 | for every command name, spaces and parentheses included, parsing a printed line recovers state, utime + stime and starttime, and the client finds the same start |
| `ProcText.ClientAgreesWithMonitor` | ros2_ws/src/monitor_client/src/monitor_registration.cpp:50-78 | on every line the monitor can parse, the client reads the same nonzero start time |
| `ProcText.KeyRecoversProcess` | ros2_ws/src/monitor/src/monitor/process_monitor.cpp:91-104 | for a NUL-free name, pruning reads back exactly the printed pid and start time |
| `ProcText.KeyIsInjective` | ros2_ws/src/monitor/src/monitor/process_monitor.cpp:32-40 | keys of NUL-free names are equal only for equal identities |
| `ProcText.PlainKeyIsUnique` | ros2_ws/src/monitor/src/monitor/process_monitor.cpp:32-40 | an identity without NUL shares its key with no identity at all |
| `ProcText.NulInNameHidesTheProcess` | ros2_ws/src/monitor/src/monitor/process_monitor.cpp:91-104 | with a NUL inside the name the key leads back to no process |
| `ProcessMonitor.ClientIdentityIsLive` | ros2_ws/src/monitor_client/src/monitor_registration.cpp:50-78 | the identity a client builds from its own stat line is the one the monitor finds alive, unless a zombie or dead |
| `ProcessMonitor.IsLiveIdentity` | ros2_ws/src/monitor/src/monitor/process_monitor.cpp:70-74 | alive means present, not Z or X, and with that start time |
| `ProcessMonitor.PruneLeavesLiveRecords` | ros2_ws/src/monitor/src/monitor/process_monitor.cpp:76-90 | a prune leaves exactly the records whose process lives and whose lease has not run out, unchanged |
| `ProcessMonitor.PruneLeavesLiveTombstones` | ros2_ws/src/monitor/src/monitor/process_monitor.cpp:91-109 | and exactly the tombstones whose key leads to a living process |
| `ProcessMonitor.LeavingIsReportedOnce` | ros2_ws/src/monitor/src/monitor/process_monitor.cpp:76-90 | a record that leaves is reported by exactly one event with the cause that applied |
| `ProcessMonitor.EventsAreAboutTheLeaving` | ros2_ws/src/monitor/src/monitor/process_monitor.cpp:76-90 | every event of a prune is about a record that left in it |
| `ProcessMonitor.ProcessMonitor.PruneRecords` | ros2_ws/src/monitor/src/monitor/process_monitor.cpp:76-90 | the loop over the unordered table, in any order, removes and reports exactly the records that fail |
| `ProcessMonitor.ProcessMonitor.PruneTombstones` | ros2_ws/src/monitor/src/monitor/process_monitor.cpp:91-109 | the loop keeps exactly the tombstones whose key leads to a live process |
| `ProcessMonitor.ProcessMonitor.AdmitRegister` | ros2_ws/src/monitor/src/monitor/process_monitor.cpp:121-128 | the checks made before the lock |
| `ProcessMonitor.ProcessMonitor.RegisterChecked` | ros2_ws/src/monitor/src/monitor/process_monitor.cpp:130-169 | prune, tombstone check, renewal by the owner only, limit, entry |
| `ProcessMonitor.ProcessMonitor.UnregisterNode` | ros2_ws/src/monitor/src/monitor/process_monitor.cpp:172-213 | prune, repeated unregister, liveness, limit, tombstone first and then the owner's record |
| `ProcessMonitor.ProcessMonitor.IsRegistered` | ros2_ws/src/monitor/src/monitor/process_monitor.cpp:392-396 | prunes, then looks the name up |
| `ProcessMonitor.ProcessMonitor.TakeCleanupEvents` | ros2_ws/src/monitor/src/monitor/process_monitor.cpp:408-413 | hands out what is pending and keeps nothing |
| `RegistryProtocol.PlainIdentitiesAreSafe` | ros2_ws/src/monitor/src/monitor/process_monitor.cpp:32-40 | identities without NUL have a recoverable key of their own |
| `RegistryProtocol.TerminatedStaysOut` | ros2_ws/src/monitor/src/monitor/process_monitor.cpp:112-213 | over every run of late, repeated and reordered requests: after an accepted unregister the identity is never registered while its process lives, registered and tombstoned stay disjoint, tombstones stay within the limit |
| `RegistryProtocol.ExactlyRecoverableDistinctStayOut` | ros2_ws/src/monitor/src/monitor/process_monitor.cpp:91-109 | an identity is kept out in every run exactly when its key leads back to its process and no identity whose process could live beside it has the same key, or the table has no room at all |
| `RegistryProtocol.NulInNameIsRevived` | ros2_ws/src/monitor/src/monitor/process_monitor.cpp:91-109 | the concrete name for which a late renewal gets a terminated identity back in |
| `RegistryLedger.BooksBalance` | ros2_ws/src/monitor/src/monitor/process_monitor.cpp:408-413 | over every run events are handed out once and in order, and every registration is current, unregistered, or the subject of one event |
| `RegistryLedger.OwnershipEndsForACause` | ros2_ws/src/monitor/src/monitor/process_monitor.cpp:139-213 | an owner loses its name only by its own unregister, or by exit or expiry with exactly one event saying which |
| `RegistryLedger.OwnershipBeginsByRegister` | ros2_ws/src/monitor/src/monitor/process_monitor.cpp:139-170 | a name gets an owner only by that owner's register request, and only when free or freed by that very prune |
| `RegistryLeases.RegisterDecides` | ros2_ws/src/monitor/src/monitor/process_monitor.cpp:130-169 | what a register request does to its name, on the registry before and after: refused by a standing tombstone, an owner still there renewed to time and process name of the request, someone else's name left alone, a free name given away while there is room |
| `RegistryLeases.UnregisterDecides` | ros2_ws/src/monitor/src/monitor/process_monitor.cpp:172-213 | the same for an unregister request: accepted for a living process while there is room, with its tombstone and without its record afterwards; repeated without effect; otherwise nothing |
| `RegistryLeases.OtherNamesAreOnlyPruned` | ros2_ws/src/monitor/src/monitor/process_monitor.cpp:76-109 | no step does more to a name than prune it, unless it is a request about that name |
| `RegistryLeases.RecordedTimeIsLatestRequest` | ros2_ws/src/monitor/src/monitor/process_monitor.cpp:139-169 | over every run the recorded time of a name is the time of its owner's latest accepted request |
| `RegistryLeases.FaithfulOwnerStays` | ros2_ws/src/monitor/src/monitor/process_monitor.cpp:76-169 | an owner whose process lives, that does not unregister and renews in time for every prune keeps its name through every run, whatever the others request |
| `MonitorClient.UnregisterIsLast` | ros2_ws/src/monitor_client/src/monitor_registration.cpp:193-292 | over every run the client sends registers for one identity and at most one unregister, after which it sends nothing; an ended worker did send it unless the service was missing until the deadline |
| `MonitorClient.UnregisterNeedsOnlyTheService` | ros2_ws/src/monitor_client/src/monitor_registration.cpp:246-292 | as soon as the service is found the unregister goes out; it is given up exactly when the service is missing at the deadline |
| `MonitorClient.NothingIsSentAfterClose` | ros2_ws/src/monitor_client/src/monitor_registration.cpp:294-330 | once the closing thread has joined the worker, no step changes or sends anything |
| `MonitorClient.EveryRoundRenews` | ros2_ws/src/monitor_client/src/monitor_registration.cpp:177-244 | while nobody has stopped it, the worker has sent exactly one register request for every time it rested |

## Left out

- ROS wiring, parameters, QoS, launch files, logging, TF lookup and image drawing; whether TF or a scan publisher is there is an event's argument.
- `project_laser_scan`: the projection is uninterpreted, a scan event carries the points it yields; a scan without a subscription does not reach the callback.
- Floating point: floats are reals, an infinite range is the value `Unavailable`; rounding and NaN are not modelled.
- Each tracker callback is one step that reads the clock once, since the executor is single-threaded; the source may read it twice within one callback.
- RKNN, RGA, OpenCV, V4L2, ALSA and the LiDAR SDK: foreign calls, present only as the results they may give.
- `DetectorPipeline`: offline images, publishing and statistics are left out; an inference either yields a result or fails; images refused before the queue are not frames of the model.
- JSON and `ast` parsing and the per-device argument checks: one abstract function that accepts a text as a command, finds it invalid, or crashes.
- Reply and detail texts: opaque strings that no property looks into.
- `Interaction`: an agent without a memory object, and the size limit on streamed model output.
- `ConversationMemory`: the byte limit of the file and atomic replacement; a save either works or does not.
- Wake words, sleep commands, the music filter and speech output of the voice session: they choose the reply of a turn, not its pauses and resumes.
- `LiveSpeech`: opening and closing devices and connections, and the time-outs of the waits; a listen may give up at any moment.
- `VoiceSession`: audio is counted in whole frames of 100 ms, and a frame arrives in the recorder's pipe in one moment; sound still inside the recorder at a resume arrives afterwards; a capture failure or a lost connection may happen at any moment, so its causes are not told apart.
- `PerceptionAgent.AgentRefinesTracker`: speaks of runs in which no request falls under `Betrays`; other clients of the two services are not modelled.
- `ProcessMonitor`: /proc is read once per locked region, so a process does not die between two records of one prune; CPU, memory and disk rates are left out.
- `RegistryProtocol.TerminatedStaysOut`: says nothing about an unregister refused because the tombstone table is full, since nothing was accepted then.
- `MonitorClient`: wall-clock promises of closing; closing may have to wait for the renewal pause to end.
- `MonitorClient.UnregisterIsLast`: whether requests arrive is the network's affair; the registry's runs allow any requests in any order, which covers all that this client can send.
- Simulated devices, the web interface, shell scripts and probes.
