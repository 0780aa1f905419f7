# Synthetic grasp-data generator: a verified model of its core

The system generates synthetic training data for a vision-guided hand prosthesis. A
Unity scenario runs in iterations, and each iteration records one short video sequence.

- **Setup.** It picks one object-grasp pair: a YCB-like object prefab and one of its
  annotated grasp boxes (child objects of the prefab's `textured` node).
- **Placement.** It places a wrist camera, the object and a prosthetic hand at random.
  It retries until the camera's line of sight hits the intended grasp box.
- **Approach.** Frame by frame it moves the camera towards the grasp along a
  minimum-jerk straight line. On the way it applies a pronation-supination roll and a
  flexion-extension pitch.
- **Materials.** Randomizers swap the floor, wall, table and object materials at the
  start of an iteration and put them back at the end.
- **Labelling.** A labeler reports on every captured frame which object, instance,
  texture, grasp type, preshape, side and flags are in view.
- **Conversion.** A Python script (in a data-collection version and a post-processing
  version) moves every captured image into a folder tree that mirrors a real dataset.
  It names the folders after the labels and writes one `data.log` per sequence.

## Layout

Each `.dfy` file is one module.

| file | what it models |
|---|---|
| `wrappers.dfy` | `Option` and `Result` |
| `scene.dfy` | vectors, rotations and uniform samplers (a sample is a draw `u` in [0, 1]) |
| `text.dfy` | the string operations the sources use: `Contains`, `Replace`, `zfill`, `split`, `strip` |
| `min_jerk.dfy` | `minimumJerkStraightLineTrajectory` |
| `grasp_rules.dfy` | the pure decision rules of both `WristCameraMovement` versions (placement, rotation, the pronation-supination angle, targets, the per-frame roll and the sign lock, hand poses) |
| `pair_queue.dfy` | the object-grasp queue and the bounded retry search, as specifications |
| `wrist_camera.dfy` | the `WristCameraMovement` class itself |
| `grasp_names.dfy` | grasp-name tags, the instance and texture names, and the preshape dictionaries |
| `grasp_labeler.dfy` | both `GraspTypeLabeler.OnBeginRendering` versions |
| `dataset_naming.dfy` | the naming rules of both conversion scripts |
| `dataset_convert.dfy` | the conversion run, as a class over a model of the file system |
| `material_randomizers.dfy` | the floor, wall and table material randomizers |
| `object_placement.dfy` | `SingleObjectPlacementRandomizer` and its object pool |

Both versions of `WristCameraMovement.cs` and `GraspTypeLabeler.cs` are modelled:

- **Data collection**: the current one, under `Data_collection/`.
- **Legacy**: the older one, directly under `Assets/Scripts`.

A `variant` or `labeler` value selects the rules in which they differ.

How engine behaviour is modelled:

- Every engine query is an input. This covers sampler draws, line casts, signed angles
  and distances.
- A request to stop play mode (`isPlaying = false`) appends a fault to a log, because
  the method goes on running after it.
- An exception (a missing dictionary key, a remainder by zero, a null dereference, an
  index into an empty list) is an outcome value.
- Unity returns an instance copy of a material, so `renderer.materials` is copied
  state. It is modelled as a sequence that the methods read and reassign.

## Model

Abbreviations used in the third column:

- "collection script": `python_scripts/Data_collection/script_convert_dataset.py`.
- "post-processing script": `Data_collection/PostProcessing_dataset/script_convert_dataset.py`.

| member | source | states |
|---|---|---|
| MinimumJerk.Blend | Assets/Scripts/Data_collection/WristCameraMovement.cs:412-415 | defines the blend 15τ⁴ − 6τ⁵ − 10τ³ that scales the distance at time τ; its properties are in BlendExpanded, BlendEnds, BlendSymmetric and BlendMonotone |
| MinimumJerk.Waypoint | Assets/Scripts/Data_collection/WristCameraMovement.cs:412-416 | defines where the camera stands after k of the F frames on one axis, x0 + (x0 − xf)·blend(k/F); its properties are in TrajectoryPrefixSum and WaypointFromOrigin |
| MinimumJerk.Offset | Assets/Scripts/Data_collection/WristCameraMovement.cs:417-421 | defines frame k's offset as the difference of consecutive waypoints; its properties are in OffsetFromOrigin, OffsetSymmetric and TrajectoryForwardOnly |
| MinimumJerk.BlendExpanded | Assets/Scripts/Data_collection/WristCameraMovement.cs:414-415 | the `Math.Pow` terms 15τ⁴ − 6τ⁵ − 10τ³ equal the expanded polynomial |
| MinimumJerk.BlendEnds | Assets/Scripts/Data_collection/WristCameraMovement.cs:412-415 | the blend is 0 at τ = 0 and −1 at τ = 1, so the waypoints run from x0 to xf |
| MinimumJerk.BlendSymmetric | Assets/Scripts/Data_collection/WristCameraMovement.cs:414 | the blend is point-symmetric about τ = 1/2 |
| MinimumJerk.SlopeNonNegative | Assets/Scripts/Data_collection/WristCameraMovement.cs:414 | the average rate at which the blend falls is never negative over any interval |
| MinimumJerk.PolyMonotone | Assets/Scripts/Data_collection/WristCameraMovement.cs:414 | the polynomial never increases |
| MinimumJerk.BlendMonotone | Assets/Scripts/Data_collection/WristCameraMovement.cs:414 | the blend never increases on the whole real line |
| MinimumJerk.Offsets | Assets/Scripts/Data_collection/WristCameraMovement.cs:406-427 | the offsets of the first n frames form a list of length n |
| MinimumJerk.OffsetsAt | Assets/Scripts/Data_collection/WristCameraMovement.cs:417-421 | entry k is the pair of single-axis offsets of frame k |
| MinimumJerk.Trajectory | Assets/Scripts/Data_collection/WristCameraMovement.cs:399-428 | the loop gives one offset per frame, each the difference of consecutive waypoints; no frames gives an empty list |
| MinimumJerk.TrajectoryPrefixSum | Assets/Scripts/Data_collection/WristCameraMovement.cs:408-424 | after k frames the running sums equal waypoint k on both axes |
| MinimumJerk.TrajectoryReachesTarget | Assets/Scripts/Data_collection/WristCameraMovement.cs:399-428 | the offsets of a whole iteration add up to exactly (xf, yf) |
| MinimumJerk.TrajectoryForwardOnly | Assets/Scripts/Data_collection/WristCameraMovement.cs:777-782 | starting from the origin towards a non-negative target, no frame moves the camera backwards |
| MinimumJerk.WaypointFromOrigin | Assets/Scripts/Data_collection/WristCameraMovement.cs:778-782 | from the origin, waypoint k is the blend scaled by −xf |
| MinimumJerk.OffsetFromOrigin | Assets/Scripts/Data_collection/WristCameraMovement.cs:414-419 | from the origin, frame k's offset is xf times the blend's drop over that frame |
| MinimumJerk.BlendDropMirrored | Assets/Scripts/Data_collection/WristCameraMovement.cs:412-414 | the blend drops as much over frame k as over frame F−1−k |
| MinimumJerk.OffsetSymmetric | Assets/Scripts/Data_collection/WristCameraMovement.cs:414-419 | from the origin, frame k moves as far as frame F−1−k on one axis |
| MinimumJerk.TrajectorySymmetric | Assets/Scripts/Data_collection/WristCameraMovement.cs:399-428 | from the origin, the speed profile is symmetric: offset k equals offset F−1−k |
| MinimumJerk.TrajectoryStillAxis | Assets/Scripts/Data_collection/WristCameraMovement.cs:778-782 | the x axis, 0 at both ends, never moves |
| GraspRules.ObjectPlacement | Assets/Scripts/Data_collection/WristCameraMovement.cs:304-342 | defines the object's position: a sampled point of the footprint, raised by the half-height, with the fixed x for border objects; its properties are in ObjectPlacementBounds and BorderObjectOutsideFootprint |
| GraspRules.ObjectRotation | Assets/Scripts/Data_collection/WristCameraMovement.cs:346-382 | defines the object's rotation Euler(0, yaw, roll) from the yaw draw and the tags; its properties are in ObjectRoll, ObjectRollByTag and ObjectRotationRanges |
| GraspRules.CameraPlacement | Assets/Scripts/Data_collection/WristCameraMovement.cs:385-397 | defines the camera's position on its plane from the y and z draws; its property is in CameraPlacementInPlane |
| GraspRules.LocalColliderPoint | Assets/Scripts/WristCameraMovement.cs:522-532 | defines the legacy random point of the grasp box in the box's own coordinates; its property is in LocalColliderPointInBox |
| GraspRules.ForcedSupination | Assets/Scripts/Data_collection/WristCameraMovement.cs:694-700 | defines the grasp and object pairs whose angle is forced non-positive (adducted thumb, and six grasp-object combinations); it is used by NormalisedPsMeaning |
| GraspRules.NormalisedPs | Assets/Scripts/Data_collection/WristCameraMovement.cs:680-723 | defines the pronation-supination angle before scaling: NaN for `[nops]`, otherwise the measured angle normalised; its properties are in NormalisedPsNaN and NormalisedPsMeaning |
| GraspRules.ScalePs | Assets/Scripts/Data_collection/WristCameraMovement.cs:725 | defines the angle scaled by the sampled share; its property is in ScalePsBounds |
| GraspRules.Extremities | Assets/Scripts/Data_collection/WristCameraMovement.cs:731-737 | defines the two ends of the grasp box along its z axis through the accepted point; its property is in ExtremitiesGeometry |
| GraspRules.ChooseTargets | Assets/Scripts/Data_collection/WristCameraMovement.cs:749-759 | defines which extremity is approached and which one the flexion turns towards; its properties are in ChooseTargetsRoles and TargetsDistinct |
| GraspRules.PsTotal | Assets/Scripts/Data_collection/WristCameraMovement.cs:798-806 | defines the total roll after c frames as the sum of the per-frame increments; its properties are in PsTotalByWindow, PsAppliedInFull and NoPsForNaN |
| GraspRules.FeStep | Assets/Scripts/Data_collection/WristCameraMovement.cs:822-847 | defines one frame of the flexion-extension sign lock: the applied angle and the new lock; its property is in FeStepLock |
| GraspRules.ObjectPlacementBounds | Assets/Scripts/Data_collection/WristCameraMovement.cs:304-342 | the object rests half its height above the plane, with z inside the footprint; x is inside the footprint, except for a border object |
| GraspRules.BorderObjectOutsideFootprint | Assets/Scripts/Data_collection/WristCameraMovement.cs:312-329 | a border object (hammer, plate, books, ...) gets the fixed x 0.08 past the near edge, outside the footprint |
| GraspRules.ObjectRoll | Assets/Scripts/Data_collection/WristCameraMovement.cs:346-375 | the object's roll is 0 or 180 |
| GraspRules.ObjectRollByTag | Assets/Scripts/Data_collection/WristCameraMovement.cs:347-374 | `[usd]` always gives 180 and no tag gives 0; `[susd]` alone gives 180 exactly when the draw exceeds 0.5 |
| GraspRules.ObjectRotationRanges | Assets/Scripts/Data_collection/WristCameraMovement.cs:378-382 | the rotation is Euler(0, yaw, roll), with the yaw in [0, 360] and the roll from the tags |
| GraspRules.CameraPlacementInPlane | Assets/Scripts/Data_collection/WristCameraMovement.cs:385-397 | the camera keeps the plane's x and lies within its y and z extents |
| GraspRules.LocalColliderPointInBox | Assets/Scripts/WristCameraMovement.cs:522-532 | the legacy drawn point lies inside the box collider, within half its size on each axis |
| GraspRules.NormalisedPsNaN | Assets/Scripts/Data_collection/WristCameraMovement.cs:680-684 | the angle is NaN exactly when the grasp name contains `[nops]` |
| GraspRules.NormalisedPsMeaning | Assets/Scripts/Data_collection/WristCameraMovement.cs:686-723 | forced-supination pairs keep the measured size with a non-positive sign; other pairs get the opposite of the measured angle or of its half-turn, within ±90 for a measured angle in [−180, 180] |
| GraspRules.ScalePsBounds | Assets/Scripts/Data_collection/WristCameraMovement.cs:725 | scaling by the sampled share keeps NaN, keeps the sign and never grows the size |
| GraspRules.ExtremitiesGeometry | Assets/Scripts/Data_collection/WristCameraMovement.cs:731-737 | the two extremities lie a whole box height apart on the z line through the point, centred on it |
| GraspRules.ChooseTargetsRoles | Assets/Scripts/Data_collection/WristCameraMovement.cs:749-759 | the approach takes the upper point exactly for a draw above 0.5, and the flexion point takes the other one |
| GraspRules.TargetsDistinct | Assets/Scripts/Data_collection/WristCameraMovement.cs:731-759 | with a non-zero height, the approach and flexion targets always differ, centred on the point |
| GraspRules.PsIncrement | Assets/Scripts/Data_collection/WristCameraMovement.cs:800-806 | no roll outside the window [start, start + duration) or for a NaN angle |
| GraspRules.PsTotalByWindow | Assets/Scripts/Data_collection/WristCameraMovement.cs:798-806 | the roll applied after c frames is the number of window frames seen times angle/duration |
| GraspRules.WindowFramesFull | Assets/Scripts/Data_collection/WristCameraMovement.cs:801-802 | a window inside frames 1..c is counted in full |
| GraspRules.WindowFramesUpTo | Assets/Scripts/Data_collection/WristCameraMovement.cs:801-802 | before the window ends, the count is the number of window frames already passed |
| GraspRules.PsAppliedInFull | Assets/Scripts/Data_collection/WristCameraMovement.cs:798-806 | a positive window that fits in the iteration rolls the camera by exactly the scaled angle |
| GraspRules.NoPsForNaN | Assets/Scripts/Data_collection/WristCameraMovement.cs:803 | a `[nops]` iteration never rolls the camera |
| GraspRules.FeStepLock | Assets/Scripts/Data_collection/WristCameraMovement.cs:822-847 | the lock keeps the angle's size; the start frame records its sign; later frames keep the lock and apply an angle of the locked sign |
| GraspRules.HandModelOf | Assets/Scripts/Data_collection/WristCameraMovement.cs:216-252 | the data-collection version never sees FpsArmsHigh and the legacy version never sees Hannes_ARM |
| GraspRules.HandRangesFor | Assets/Scripts/Data_collection/WristCameraMovement.cs:532-550 | sampler ranges exist exactly for Arm02, and also for FpsArmsHigh in the legacy version |
| GraspRules.HandTransform | Assets/Scripts/Data_collection/WristCameraMovement.cs:203-257 | an error is reported exactly for a model without ranges, which then gets the neutral pose |
| GraspRules.HandTransformBounds | Assets/Scripts/Data_collection/WristCameraMovement.cs:232-239 | the hand moves by at most the ranges in the model's directions; the last rotation step (about z) lies in the position-z range |
| PairQueue.QueueAt | Assets/Scripts/Data_collection/WristCameraMovement.cs:586-598 | defines the queue after iteration k's pop; its properties are in QueueAtElements, QueueAtIsSuffix, PairOfIteration and CheckedSetupNeverExhausts |
| PairQueue.Accepts | Assets/Scripts/Data_collection/WristCameraMovement.cs:645-657 | defines an accepted hit: the grasp itself, with the object in the scene as its grandparent; it is used by SearchOutcome and the search lemmas |
| PairQueue.Search | Assets/Scripts/Data_collection/WristCameraMovement.cs:620-677 | defines the retry loop from a given attempt, resample count and empty-cast count; its properties are in SearchCounts, SearchOutcome, SearchStep and SearchStop |
| PairQueue.RunSearch | Assets/Scripts/Data_collection/WristCameraMovement.cs:617-677 | defines the whole search, from attempt 0; its properties are in FirstCastAccepted, AlwaysWrongHit, NoHitIsNeverRecovered, WrongHitsFirst, UnparentedHitThrows and FiveWrongHitsThenGrasp |
| PairQueue.GraspsOf | Assets/Scripts/Data_collection/WristCameraMovement.cs:477-481 | one pair per grasp child of the object, in child order |
| PairQueue.PairsFrom | Assets/Scripts/Data_collection/WristCameraMovement.cs:474-482 | setup lists as many pairs as there are grasp children in total |
| PairQueue.PairsFromMembership | Assets/Scripts/Data_collection/WristCameraMovement.cs:474-482 | a pair is listed exactly when it names an existing object and one of its grasp children |
| PairQueue.PairsFromOrdered | Assets/Scripts/Data_collection/WristCameraMovement.cs:474-482 | the listing is strictly object-major, grasp-minor, so no pair is listed twice |
| PairQueue.QueueAtElements | Assets/Scripts/Data_collection/WristCameraMovement.cs:590-598 | the queue only ever holds listed pairs |
| PairQueue.QueueAtIsSuffix | Assets/Scripts/Data_collection/WristCameraMovement.cs:586-598 | after iteration k's pops, the queue is the listing from index k / \|n\| on |
| PairQueue.PairOfIteration | Assets/Scripts/Data_collection/WristCameraMovement.cs:590 | pair j is executed by exactly the n iterations j·n .. j·n+n−1 |
| PairQueue.CheckedSetupNeverExhausts | Assets/Scripts/Data_collection/WristCameraMovement.cs:484-498 | when pairs × n equals the declared iterations, every iteration finds a front, namely listed pair k / n |
| PairQueue.FrontOfSuffix | Assets/Scripts/Data_collection/WristCameraMovement.cs:597-599 | the executed pair is listed pair k / n |
| PairQueue.SearchCounts | Assets/Scripts/Data_collection/WristCameraMovement.cs:620-677 | the search ends by attempt 1000, and each rejected attempt counts once, as a resample or as a cast that hit nothing |
| PairQueue.SearchApproach | Assets/Scripts/Data_collection/WristCameraMovement.cs:617-677 | the retry loop returns the search specification's final index, resamples, empty casts and way of ending (accepted, a hit on a collider without grandparent, or given up), and ends by attempt 1000 |
| PairQueue.SearchStep | Assets/Scripts/Data_collection/WristCameraMovement.cs:635-668 | a rejected attempt (a wrong hit or an empty cast, not a collider without grandparent) hands the search to the next one: a wrong hit resamples, an empty cast does not |
| PairQueue.SearchStop | Assets/Scripts/Data_collection/WristCameraMovement.cs:656-660 | an accepted attempt ends the search where it stands |
| PairQueue.SearchOutcome | Assets/Scripts/Data_collection/WristCameraMovement.cs:622-677 | an attempt below 1000 ends the loop only when it is accepted or hits a collider without grandparent; the index reaches 1000 exactly when every attempt was rejected |
| PairQueue.FirstCastAccepted | Assets/Scripts/Data_collection/WristCameraMovement.cs:635-660 | an accepted first cast ends the search at once, without resampling |
| PairQueue.AlwaysWrongHit | Assets/Scripts/Data_collection/WristCameraMovement.cs:661-677 | if every cast hits something else, all 1000 attempts are spent, each followed by a resample |
| PairQueue.NoHitIsNeverRecovered | Assets/Scripts/Data_collection/WristCameraMovement.cs:635-642 | a scene whose cast hits nothing is never resampled: 1000 empty casts and the search gives up |
| PairQueue.WrongHitsFirst | Assets/Scripts/Data_collection/WristCameraMovement.cs:661-668 | j wrong hits in a row cost j attempts and j resamples |
| PairQueue.UnparentedHitThrows | Assets/Scripts/Data_collection/WristCameraMovement.cs:645-650 | j wrong hits and then a hit on a collider without grandparent stop the search at attempt j after j resamples, ending in the null dereference |
| PairQueue.FiveWrongHitsThenGrasp | Assets/Scripts/Data_collection/WristCameraMovement.cs:622-670 | five wrong hits then the grasp: the sixth cast (index 5) is accepted after five resamples |
| WristCamera.GraspCounts | Assets/Scripts/Data_collection/WristCameraMovement.cs:474-477 | entry o is the number of grasp children of prefab o |
| WristCamera.FrameRoll | Assets/Scripts/Data_collection/WristCameraMovement.cs:800-806 | the roll turned on frame c is that frame's pronation-supination increment |
| WristCamera.FramePitchMeaning | Assets/Scripts/Data_collection/WristCameraMovement.cs:808-850 | before the flexion-extension start nothing pitches and the lock is kept; from it on one pitch of a tenth of the locked angle is applied |
| WristCamera.MotionStart | Assets/Scripts/Data_collection/WristCameraMovement.cs:770-782 | a freshly planned approach starts the reference-to-camera offset behind, unturned, with all offsets to go |
| WristCamera.MotionAdvance | Assets/Scripts/Data_collection/WristCameraMovement.cs:792-806 | one frame consumes the front offset, advances by it and appends the frame's roll and any pitch |
| WristCamera.MotionArrives | Assets/Scripts/Data_collection/WristCameraMovement.cs:770-796 | after the last planned frame the camera has covered the whole distance |
| WristCamera.AttemptTargetInBox | Assets/Scripts/WristCameraMovement.cs:588-593 | the data-collection version aims at the grasp's centre; the legacy version aims at a drawn point inside the collider box |
| WristCamera.ListPairs | Assets/Scripts/Data_collection/WristCameraMovement.cs:474-482 | the nested loop lists exactly the pairs of existing prefabs and grasp children, object-major |
| WristCamera.WristCameraMovement.SearchFor | Assets/Scripts/Data_collection/WristCameraMovement.cs:617-677 | defines the search of a pair with the iteration's draws; its properties are those of PairQueue.RunSearch |
| WristCamera.WristCameraMovement.ApproachPoint | Assets/Scripts/Data_collection/WristCameraMovement.cs:617-677 | defines the point the approach aims at: the accepting attempt's point, or the engine's point after giving up; PlaceForApproach returns it |
| WristCamera.WristCameraMovement.SearchOutcome | Assets/Scripts/Data_collection/WristCameraMovement.cs:645-650 | defines the search's outcome: a null-reference exception exactly when it ends at a collider without grandparent; PlaceForApproach, RunIteration and OnIterationStart return it |
| WristCamera.WristCameraMovement.constructor | Assets/Scripts/Data_collection/WristCameraMovement.cs:129-200 | the counter starts at −1, nothing is saved, and the editor's active grasp children are kept |
| WristCamera.WristCameraMovement.OnAwake | Assets/Scripts/Data_collection/WristCameraMovement.cs:430-553 | every pair is listed and every grasp deactivated; a faulty pair count and a hand model without ranges each log a fault |
| WristCamera.WristCameraMovement.RandomHandTransform | Assets/Scripts/Data_collection/WristCameraMovement.cs:203-257 | within range the pose is saved and the randomized pose applied (an unsupported model logs a fault); otherwise nothing changes |
| WristCamera.WristCameraMovement.RandomHandMaterial | Assets/Scripts/Data_collection/WristCameraMovement.cs:259-280 | within range a supported model saves its material and takes the drawn one; an unsupported model logs a fault |
| WristCamera.WristCameraMovement.RandomObjectMaterial | Assets/Scripts/Data_collection/WristCameraMovement.cs:283-302 | within range the instance's material is replaced and the old one returned for saving |
| WristCamera.WristCameraMovement.NextPair | Assets/Scripts/Data_collection/WristCameraMovement.cs:586-615 | the counter is incremented; n = 0 throws; otherwise it completes exactly when the queue for this iteration has a front, which becomes the only active grasp |
| WristCamera.WristCameraMovement.BeginIteration | Assets/Scripts/Data_collection/WristCameraMovement.cs:579-598 | the camera is at its first draw, the hand is randomized with the logged faults, and the pair is selected as by NextPair |
| WristCamera.WristCameraMovement.PlaceForApproach | Assets/Scripts/Data_collection/WristCameraMovement.cs:617-677 | camera and object stand where the search's last resample put them; one fault per empty cast and one on giving up; a hit on a collider without grandparent throws a null reference; otherwise the result is the accepted attempt's point, or the engine's point after giving up |
| WristCamera.WristCameraMovement.StageScene | Assets/Scripts/Data_collection/WristCameraMovement.cs:599-677 | the pair's instance is taken from the pool and possibly re-textured, then placed by the search, which may throw a null reference |
| WristCamera.WristCameraMovement.AimApproach | Assets/Scripts/Data_collection/WristCameraMovement.cs:679-765 | the pronation-supination angle is normalised then scaled; the window and flexion start are the draws; the targets are the chosen extremities |
| WristCamera.WristCameraMovement.StartMotion | Assets/Scripts/Data_collection/WristCameraMovement.cs:767-782 | the camera starts the reference offset behind, unturned, with a minimum-jerk trajectory over the distance |
| WristCamera.WristCameraMovement.PlanApproach | Assets/Scripts/Data_collection/WristCameraMovement.cs:679-782 | the approach is planned towards the target and the motion invariant is set up |
| WristCamera.WristCameraMovement.StartApproach | Assets/Scripts/Data_collection/WristCameraMovement.cs:679-783 | the approach is planned and the iteration of the selected pair begins with the frame counter at 0 |
| WristCamera.WristCameraMovement.EnterIteration | Assets/Scripts/Data_collection/WristCameraMovement.cs:596-598 | the selected pair becomes the executed one and the iteration is in progress |
| WristCamera.WristCameraMovement.RunIteration | Assets/Scripts/Data_collection/WristCameraMovement.cs:599-783 | staging then planning: pooled instance, search placement, logged faults, material saving; a null reference from the search stops before planning, with the pair still selected; otherwise the plan is towards the search's point |
| WristCamera.WristCameraMovement.OnIterationStart | Assets/Scripts/Data_collection/WristCameraMovement.cs:579-783 | the counter is incremented; it throws a remainder by zero exactly for n = 0, an index exception exactly for an exhausted queue, and a null reference exactly when the search hits a collider without grandparent; on success the queue front is executed and is the only active grasp |
| WristCamera.WristCameraMovement.AdvanceFrame | Assets/Scripts/Data_collection/WristCameraMovement.cs:792-850 | one frame's moves keep the motion invariant: offset consumed, counter incremented, roll and pitch appended |
| WristCamera.WristCameraMovement.OnUpdate | Assets/Scripts/Data_collection/WristCameraMovement.cs:785-851 | an empty offset list throws; otherwise one frame's moves; the total roll is the window's share so far, and after the last frame the whole distance is covered |
| WristCamera.WristCameraMovement.RestoreScene | Assets/Scripts/Data_collection/WristCameraMovement.cs:862-890 | the pool is reset and saved materials go back; an unsupported hand model logs a fault and keeps its saved material |
| WristCamera.WristCameraMovement.EndSchedule | Assets/Scripts/Data_collection/WristCameraMovement.cs:855-860 | the grasp is deactivated after its pair's last iteration, so the active set is empty or the queue front |
| WristCamera.WristCameraMovement.OnIterationEnd | Assets/Scripts/Data_collection/WristCameraMovement.cs:853-897 | deactivation as in EndSchedule, restores as in RestoreScene, the hand back at the saved pose, the frame counter 0 |
| GraspNames.StripFlagTags | Assets/Scripts/Data_collection/Labelers/GraspTypeLabeler.cs:230 | defines the removal of the three flag tags; its properties are in StripFlagTagsOfTaggedName and LegacyKeepsSideTags |
| GraspNames.ParseGraspName | Assets/Scripts/Data_collection/Labelers/GraspTypeLabeler.cs:226-242 | defines the data-collection parse of a grasp child's name into grasp type, flags and side; its properties are in ParseTaggedFlags, ParseTaggedSide, ParseTaggedName and ParseUntaggedName |
| GraspNames.InstanceOf | Assets/Scripts/Data_collection/Labelers/GraspTypeLabeler.cs:216 | defines the instance name of a pooled object; its property is in InstanceOfClone |
| GraspNames.TextureName | Assets/Scripts/Data_collection/Labelers/GraspTypeLabeler.cs:219-224 | defines both labelers' texture label of a material name; its properties are in TextureNameOfInstance and TextureNameOfBareMaterial |
| GraspNames.Lookup | Assets/Scripts/Data_collection/Labelers/GraspTypeLabeler.cs:217-244 | defines a dictionary read (the instance and the preshape lookups) as the value or the missing key; it is used by LabelledMeaning and LabelOfTaggedGrasp |
| GraspNames.RemoveFromTags | Assets/Scripts/Data_collection/Labelers/GraspTypeLabeler.cs:230 | replacing a tag by nothing in a run of tags drops exactly the copies of that tag |
| GraspNames.ContainsInTags | Assets/Scripts/Data_collection/Labelers/GraspTypeLabeler.cs:227-229 | a run of tags contains a tag exactly when it is one of them |
| GraspNames.RemoveFromTaggedName | Assets/Scripts/Data_collection/Labelers/GraspTypeLabeler.cs:230 | removing a tag from a tagged name keeps the untagged base and the other tags |
| GraspNames.ContainsInTaggedName | Assets/Scripts/Data_collection/Labelers/GraspTypeLabeler.cs:227-229 | a tagged name contains a tag exactly when it is one of its tags |
| GraspNames.SideTagsMembers | Assets/Scripts/Data_collection/Labelers/GraspTypeLabeler.cs:232-242 | the laterality tags kept are exactly the name's `[left]` and `[right]` tags |
| GraspNames.LeftoverTagsMembers | Assets/Scripts/Data_collection/Labelers/GraspTypeLabeler.cs:232-242 | only a `[right]` can be left over, and only when both laterality tags are present |
| GraspNames.StripFlagTagsOfTaggedName | Assets/Scripts/Data_collection/Labelers/GraspTypeLabeler.cs:230 | removing the three flag tags leaves the base and the laterality tags |
| GraspNames.ParseTaggedFlags | Assets/Scripts/Data_collection/Labelers/GraspTypeLabeler.cs:226-229 | each flag is set exactly when its tag is among the name's tags |
| GraspNames.ParseTaggedSide | Assets/Scripts/Data_collection/Labelers/GraspTypeLabeler.cs:232-242 | `[left]` wins over `[right]`; the grasp type keeps a `[right]` that came with a `[left]` |
| GraspNames.ParseTaggedName | Assets/Scripts/Data_collection/Labelers/GraspTypeLabeler.cs:226-242 | a base plus tags in any order parses back to the base, the three flags and the side |
| GraspNames.ParseUntaggedName | Assets/Scripts/Data_collection/Labelers/GraspTypeLabeler.cs:226-242 | an untagged name is its own grasp type, with no flag and no side |
| GraspNames.LegacyKeepsSideTags | Assets/Scripts/GraspTypeLabeler.cs:176-177 | the legacy labeler removes only the flag tags; the laterality tags stay in the grasp type, in order |
| GraspNames.InstanceOfClone | Assets/Scripts/Data_collection/Labelers/GraspTypeLabeler.cs:216 | a pooled instance "P(Clone)" is labelled P |
| GraspNames.RemoveInstanceSuffix | Assets/Scripts/Data_collection/Labelers/GraspTypeLabeler.cs:220 | the " (Instance)" suffix comes off a material name without blanks |
| GraspNames.OriginalInstanceNames | Assets/Scripts/GraspTypeLabeler.cs:180-183 | the legacy full names of the untouched material are "material_0" and "material0" with the suffix |
| GraspNames.NoInstanceSuffix | Assets/Scripts/Data_collection/Labelers/GraspTypeLabeler.cs:220 | a name without blanks is unchanged by removing the suffix |
| GraspNames.TextureNameOfInstance | Assets/Scripts/Data_collection/Labelers/GraspTypeLabeler.cs:219-224 | for an instance copy, both labelers give "Original" for the untouched material and the material's name otherwise |
| GraspNames.TextureNameOfBareMaterial | Assets/Scripts/GraspTypeLabeler.cs:175-184 | for every material name without blanks (a material that is not an instance copy) the legacy labeler keeps the name and the data-collection labeler gives "Original" for the untouched material, so they differ exactly on "material_0" and "material0" |
| GraspNames.PreshapeKeysUntagged | Assets/Scripts/Data_collection/Labelers/GraspTypeLabeler.cs:102-117 | the data-collection dictionary has no tagged key |
| GraspNames.LegacyPreshapeKeepsSide | Assets/Scripts/GraspTypeLabeler.cs:18-27 | every tagged legacy key, for any base and laterality tag, has its untagged base as a key too, and maps to the base's preshape with the same tag |
| GraspNames.PreshapeTablesAgree | Assets/Scripts/Data_collection/Labelers/GraspTypeLabeler.cs:102-117 | a key is in the data-collection dictionary exactly when it is an untagged key of the legacy one, and there the two agree on every key except "tripod" |
| GraspLabeler.LabelOf | Assets/Scripts/Data_collection/Labelers/GraspTypeLabeler.cs:216-260 | defines the annotation of the object in view and its grasp child, with the lookups that may fail; its properties are in LabelledMeaning and LabelOfTaggedGrasp |
| GraspLabeler.Render | Assets/Scripts/Data_collection/Labelers/GraspTypeLabeler.cs:165-261 | defines what a frame produces: nothing, an exception, or an annotation and whether it is reported; its properties are in OnBeginRendering, NothingOffCaptureFrames, LegacyWorksEveryFrame, ObjectCountChecked and LabelledInView |
| GraspLabeler.LastSetIsLast | Assets/Scripts/Data_collection/Labelers/GraspTypeLabeler.cs:199-209 | the remembered index is set with nothing set after it, and it is −1 exactly when the count is 0 |
| GraspLabeler.SingleSetIsLast | Assets/Scripts/Data_collection/Labelers/GraspTypeLabeler.cs:182-196 | with a count of one, the remembered index is the only set one |
| GraspLabeler.CountAndLast | Assets/Scripts/Data_collection/Labelers/GraspTypeLabeler.cs:182-192 | the counting loop returns the number of passing children and the last one's index |
| GraspLabeler.OnBeginRendering | Assets/Scripts/Data_collection/Labelers/GraspTypeLabeler.cs:165-261 | the method with its two loops computes the rendering specification |
| GraspLabeler.NothingOffCaptureFrames | Assets/Scripts/Data_collection/Labelers/GraspTypeLabeler.cs:167-168 | the data-collection labeler does nothing on a frame that is not captured |
| GraspLabeler.LegacyWorksEveryFrame | Assets/Scripts/GraspTypeLabeler.cs:123-203 | the legacy labeler works and throws on every frame, and reports only on captured frames |
| GraspLabeler.ObjectCountChecked | Assets/Scripts/Data_collection/Labelers/GraspTypeLabeler.cs:182-196 | it throws the object-count exception exactly when the number in view is not 1, carrying that number |
| GraspLabeler.LabelledInView | Assets/Scripts/Data_collection/Labelers/GraspTypeLabeler.cs:182-196 | an annotation comes only from a frame with exactly one instance in view |
| GraspLabeler.LabelledMeaning | Assets/Scripts/Data_collection/Labelers/GraspTypeLabeler.cs:198-244 | the annotation describes the instance in view and its last active grasp, with dictionary lookups; a stop is requested exactly when the active count is not 1 |
| GraspLabeler.LabelOfTaggedGrasp | Assets/Scripts/Data_collection/Labelers/GraspTypeLabeler.cs:216-260 | the whole chain: one known instance with one active tagged grasp gives the prefab, object, grasp type, preshape, side and flags, and no stop |
| DatasetNaming.NormaliseView | python_scripts/Data_collection/script_convert_dataset.py:95-105 | defines the view as the output path uses it, or the rejected view; its properties are in NormalisedViews, CollectionRejectsD435 and PaddedWristView |
| DatasetNaming.ScanAnnotations | python_scripts/Data_collection/script_convert_dataset.py:84-105 | defines the annotation loop over one frame; its properties are in ScanWithoutGraspAnnotation, ScanKeepsLast, ScanStep, ScanRejectsFirstBadView and ScanNormalises |
| DatasetNaming.FrameLabels | python_scripts/Data_collection/script_convert_dataset.py:84-111 | defines the labels a frame is filed under, or why it fails; its properties are in FrameLabelsNormalised and FrameWithoutGraspAnnotation |
| DatasetNaming.PartialPath | python_scripts/Data_collection/script_convert_dataset.py:114-118 | defines the view folder base/object/instance/preshape/view; its property is in PartialPathFields |
| DatasetNaming.CompletePath | python_scripts/Data_collection/script_convert_dataset.py:137-139 | defines the frame's complete path; its property is in CompletePathParts |
| DatasetNaming.MetadataDir | python_scripts/Data_collection/script_convert_dataset.py:150-152 | defines the metadata directory by the two replacements and the removal of the frame name; its properties are in ViewComponentRenamed, SequenceComponentRenamed, FrameDropped, RenamedPath, MetadataDirOfPath and MetadataDirOfFrame |
| DatasetNaming.DataLogLine | python_scripts/Data_collection/script_convert_dataset.py:160-162 | defines the line written to data.log; its property is in DataLogColumns |
| DatasetNaming.CheckFolders | python_scripts/Data_collection/script_convert_dataset.py:41-59 | it passes exactly when launched from the script's folder with one Dataset* and one RGB* folder; the checks run in that order |
| DatasetNaming.CapturesFileNameIndex | python_scripts/Data_collection/script_convert_dataset.py:66 | "captures_" + zfill(3) + ".json" reads back as its index |
| DatasetNaming.CapturesFileNamesDistinct | python_scripts/Data_collection/script_convert_dataset.py:66 | different rounds open different file names |
| DatasetNaming.CapturesOpenedInIndexOrder | python_scripts/Data_collection/script_convert_dataset.py:64-68 | whatever order glob returns, round i opens captures_i in the same folder |
| DatasetNaming.NormalisedViews | python_scripts/Data_collection/script_convert_dataset.py:95-105 | an accepted view becomes "Wrist_d435"; collection accepts only a stripped "Wrist"; post-processing accepts "Wrist" or "Wrist_d435" |
| DatasetNaming.CollectionRejectsD435 | python_scripts/Data_collection/script_convert_dataset.py:97-105 | the collection script rejects "Wrist_d435", the newer labeler's default view |
| DatasetNaming.PaddedWristView | python_scripts/Data_collection/script_convert_dataset.py:95-100 | "Wrist" padded with any whitespace Python's `strip` removes is accepted by the collection script as "Wrist_d435"; the post-processing script accepts it only without padding |
| Text.Strip | python_scripts/Data_collection/script_convert_dataset.py:95 | Python's `strip`: no leading or trailing whitespace character is left |
| Text.StripPadded | python_scripts/Data_collection/script_convert_dataset.py:95 | stripping removes exactly the whitespace around a text that starts and ends with a non-whitespace character |
| DatasetNaming.ScanWithoutGraspAnnotation | python_scripts/Data_collection/script_convert_dataset.py:84-88 | without a grasp-type annotation the label variables keep their values |
| DatasetNaming.ScanKeepsLast | python_scripts/Data_collection/script_convert_dataset.py:84-100 | when every grasp annotation has an accepted view, the last one wins |
| DatasetNaming.ScanStep | python_scripts/Data_collection/script_convert_dataset.py:85-100 | one accepted annotation updates the labels and the scan goes on |
| DatasetNaming.ScanRejectsFirstBadView | python_scripts/Data_collection/script_convert_dataset.py:101-105 | the first grasp annotation with a rejected view stops the scan with that view |
| DatasetNaming.ScanNormalises | python_scripts/Data_collection/script_convert_dataset.py:97-100 | a scan that starts from normalised labels ends with normalised labels |
| DatasetNaming.FrameLabelsNormalised | python_scripts/Data_collection/script_convert_dataset.py:84-111 | a frame is always filed under the view "Wrist_d435" |
| DatasetNaming.FrameWithoutGraspAnnotation | python_scripts/Data_collection/script_convert_dataset.py:106-111 | without a grasp annotation the collection script fails; post-processing reuses the previous labels, or fails if there are none |
| DatasetNaming.PartialPathFields | python_scripts/Data_collection/script_convert_dataset.py:114-118 | the partial path splits back into base, object, instance, preshape and view |
| DatasetNaming.SequenceDirDigits | python_scripts/Data_collection/script_convert_dataset.py:123-124 | a later sequence directory is "rgb_" plus at least five digits reading back as its number |
| DatasetNaming.SequenceDirsDistinct | python_scripts/Data_collection/script_convert_dataset.py:123-127 | different sequence numbers name different directories |
| DatasetNaming.SequenceDirsCount | python_scripts/Data_collection/script_convert_dataset.py:120-128 | there are n first sequence directories, and the next one is new |
| DatasetNaming.FramesGoToNewestSequence | python_scripts/Data_collection/script_convert_dataset.py:120-134 | step 0 creates directory n, and with n + 1 entries the frames go to that newest directory |
| DatasetNaming.FrameFileNameParts | python_scripts/Data_collection/script_convert_dataset.py:136-139 | the frame name is at least 8 digits reading back as the step, then the extension |
| DatasetNaming.CompletePathParts | python_scripts/Data_collection/script_convert_dataset.py:137-139 | the complete path has seven components, in order |
| DatasetNaming.ViewComponentRenamed | python_scripts/Data_collection/script_convert_dataset.py:150 | replacing the view renames only the view component |
| DatasetNaming.SequenceDirRenamed | python_scripts/Data_collection/script_convert_dataset.py:150 | each sequence directory becomes its "seq" counterpart, which has no dot |
| DatasetNaming.SequenceComponentRenamed | python_scripts/Data_collection/script_convert_dataset.py:150 | replacing "rgb" renames only the sequence component |
| DatasetNaming.FrameComponentRemoved | python_scripts/Data_collection/script_convert_dataset.py:151-152 | removing the frame name empties only the last component |
| DatasetNaming.FrameDropped | python_scripts/Data_collection/script_convert_dataset.py:151-152 | removing the frame name from each component empties only the last |
| DatasetNaming.RenamedPath | python_scripts/Data_collection/script_convert_dataset.py:150 | the two replacements turn the view into "metadata" and the sequence into its "seq" counterpart |
| DatasetNaming.MetadataDirOfPath | python_scripts/Data_collection/script_convert_dataset.py:150-152 | the metadata directory of a frame path is base/object/instance/preshape/metadata/seq/ |
| DatasetNaming.MetadataDirOfFrame | python_scripts/Data_collection/script_convert_dataset.py:150-152 | the same for the k-th sequence directory and the step's frame name |
| DatasetNaming.DataLogColumns | python_scripts/Data_collection/script_convert_dataset.py:160-162 | the data.log line splits into 11 columns: junk ×3, then object, instance, grasp type and preshape, with the fixed elevation column last |
| DatasetConvert.OpenSequence | python_scripts/Data_collection/script_convert_dataset.py:120-128 | defines the sequence directory that step 0 creates, or the failing mkdir; its properties are in OpenNextSequence, FirstFrameOpensSequence and EmptyViewFolderLosesFrame |
| DatasetConvert.MoveFrame | python_scripts/Data_collection/script_convert_dataset.py:120-163 | defines how a labelled frame changes the disk: directories, rename and metadata; its properties are in FirstFrameOpensSequence, LaterFrameJoinsSequence and DataLogOnCreation |
| DatasetConvert.FrameStep | python_scripts/Data_collection/script_convert_dataset.py:73-163 | a frame keeps the invariant that carried labels are normalised |
| DatasetConvert.CapturesStep | python_scripts/Data_collection/script_convert_dataset.py:73 | the frame loop keeps the label invariant |
| DatasetConvert.FilesStep | python_scripts/Data_collection/script_convert_dataset.py:64-70 | the file loop keeps the label invariant |
| DatasetConvert.RunSpec | python_scripts/Data_collection/script_convert_dataset.py:41-70 | a whole run keeps the label invariant |
| DatasetConvert.MissingFrameSkipped | python_scripts/Data_collection/script_convert_dataset.py:77-80 | a missing image changes nothing but the report (only the collection script reports it) |
| DatasetConvert.OpenNextSequence | python_scripts/Data_collection/script_convert_dataset.py:120-125 | step 0 makes the (n+1)-th sequence directory and touches no other folder |
| DatasetConvert.FirstFrameOpensSequence | python_scripts/Data_collection/script_convert_dataset.py:120-142 | the frame at step 0 creates a new sequence and is moved into it |
| DatasetConvert.LaterFrameJoinsSequence | python_scripts/Data_collection/script_convert_dataset.py:130-142 | a later frame creates nothing and joins the newest sequence |
| DatasetConvert.EmptyViewFolderLosesFrame | python_scripts/Data_collection/script_convert_dataset.py:120-134 | an existing empty view folder gets "rgb_00000", and the frame is sent to a missing "rgb" directory |
| DatasetConvert.DataLogOnCreation | python_scripts/Data_collection/script_convert_dataset.py:154-163 | data.log is written only when the metadata directory is created; the frame ends at its complete path |
| DatasetConvert.LabelsCarriedOver | Assets/Scripts/Data_collection/PostProcessing_dataset/script_convert_dataset.py:66-88 | post-processing files a frame without grasp annotation under the previous frame's labels |
| DatasetConvert.MissingAnnotationStops | python_scripts/Data_collection/script_convert_dataset.py:106-111 | in the collection script such a frame stops the run and changes nothing |
| DatasetConvert.Converter.constructor | python_scripts/Data_collection/script_convert_dataset.py:41 | a run starts on the given disk with no labels and nothing skipped |
| DatasetConvert.Converter.ScanFrame | python_scripts/Data_collection/script_convert_dataset.py:84-105 | the annotation loop computes the scan specification |
| DatasetConvert.Converter.ConvertFrame | python_scripts/Data_collection/script_convert_dataset.py:73-163 | one frame changes the disk and labels as the frame specification says |
| DatasetConvert.Converter.FileFrame | python_scripts/Data_collection/script_convert_dataset.py:120-163 | a labelled frame is moved as the move specification says |
| DatasetConvert.Converter.StartSequence | python_scripts/Data_collection/script_convert_dataset.py:120-128 | step 0's mkdir either fails, leaving the disk unchanged, or adds the new directory |
| DatasetConvert.Converter.RenameFrame | python_scripts/Data_collection/script_convert_dataset.py:141-163 | the frame is renamed and its metadata is added once |
| DatasetConvert.Converter.ConvertCaptures | python_scripts/Data_collection/script_convert_dataset.py:73-163 | the frame loop follows the captures specification and stops at the first error |
| DatasetConvert.Converter.ConvertFiles | python_scripts/Data_collection/script_convert_dataset.py:64-70 | the file loop follows the files specification |
| DatasetConvert.Converter.Run | python_scripts/Data_collection/script_convert_dataset.py:41-163 | the whole run follows the run specification, with the folder checks first |
| MaterialRandomizers.TagStart | Assets/Scripts/Data_collection/Randomizers/FloorMaterialRandomizer.cs:58-81 | defines the saved fields after one randomized renderer; its properties are in TagStartConsistent and MissingTargetStops |
| MaterialRandomizers.TagEnd | Assets/Scripts/Data_collection/Randomizers/FloorMaterialRandomizer.cs:95-106 | defines one renderer's end step: the restored array and the cleared fields; its properties are in EndStep and SwapThenRestore |
| MaterialRandomizers.Applied | Assets/Scripts/Data_collection/Randomizers/FloorMaterialRandomizer.cs:52-53 | there is one decision per tag |
| MaterialRandomizers.LastIndexNamed | Assets/Scripts/Data_collection/Randomizers/FloorMaterialRandomizer.cs:60-67 | the result is the last slot with the name, or −1 when there is none |
| MaterialRandomizers.FirstIndexNamed | Assets/Scripts/Data_collection/Randomizers/FloorMaterialRandomizer.cs:98-105 | the result is the first slot with the name, or −1 when there is none |
| MaterialRandomizers.Swapped | Assets/Scripts/Data_collection/Randomizers/FloorMaterialRandomizer.cs:60-67 | every target slot holds the instance copy of its sampled material; the other slots are unchanged |
| MaterialRandomizers.TagStartConsistent | Assets/Scripts/Data_collection/Randomizers/FloorMaterialRandomizer.cs:73-79 | a stop is requested exactly when nothing has been saved and the renderer has no target slot |
| MaterialRandomizers.MissingTargetStops | Assets/Scripts/Data_collection/Randomizers/FloorMaterialRandomizer.cs:73-79 | a renderer without the target slot requests a stop only when nothing is saved; an earlier saved material hides the error |
| MaterialRandomizers.SwapThenRestore | Assets/Scripts/Data_collection/Randomizers/FloorMaterialRandomizer.cs:47-114 | start then end on a renderer with one target slot gives back the original array and clears the saved fields |
| MaterialRandomizers.FirstTagWith | Assets/Scripts/Data_collection/Randomizers/FloorMaterialRandomizer.cs:93-111 | the result is the first renderer holding the sampled instance's name, or −1 when there is none |
| MaterialRandomizers.EndFields | Assets/Scripts/Data_collection/Randomizers/FloorMaterialRandomizer.cs:93-111 | the end loop keeps the fields consistent and the stop request unchanged |
| MaterialRandomizers.EndStep | Assets/Scripts/Data_collection/Randomizers/FloorMaterialRandomizer.cs:95-106 | one renderer of the end loop moves the fields and array one step along the end specification |
| MaterialRandomizers.Contents | Assets/Scripts/Data_collection/Randomizers/FloorMaterialRandomizer.cs:55-59 | entry t is renderer t's material array |
| MaterialRandomizers.SwapRestoreRandomizer.constructor | Assets/Scripts/Data_collection/Randomizers/FloorMaterialRandomizer.cs:27-35 | the randomizer starts with nothing saved and no stop |
| MaterialRandomizers.SwapRestoreRandomizer.RandomizeTag | Assets/Scripts/Data_collection/Randomizers/FloorMaterialRandomizer.cs:58-81 | the renderer gets the swapped array, and the saved fields follow the start step |
| MaterialRandomizers.SwapRestoreRandomizer.OnIterationStart | Assets/Scripts/Data_collection/Randomizers/FloorMaterialRandomizer.cs:47-84 | each tag whose draw is within range is swapped and the others are untouched; the fields follow the start specification |
| MaterialRandomizers.SwapRestoreRandomizer.RestoreTag | Assets/Scripts/Data_collection/Randomizers/FloorMaterialRandomizer.cs:95-106 | the first slot named like the sampled instance gets the original back, and the fields are cleared |
| MaterialRandomizers.SwapRestoreRandomizer.OnIterationEnd | Assets/Scripts/Data_collection/Randomizers/FloorMaterialRandomizer.cs:86-114 | nothing changes without a saved original; otherwise every renderer and the fields follow the end specification |
| MaterialRandomizers.SwapRestoreRandomizer.RestoreAll | Assets/Scripts/Data_collection/Randomizers/FloorMaterialRandomizer.cs:93-111 | the end loop over all renderers follows the end specification |
| MaterialRandomizers.SwapRestoreRandomizer.RestoreNext | Assets/Scripts/Data_collection/Randomizers/FloorMaterialRandomizer.cs:95-106 | renderer t moves the end loop from its state before t to its state after t |
| MaterialRandomizers.TableEndMaterials | Assets/Scripts/TableMaterialRandomizer.cs:55-70 | defines the table materials after the end step; its property is in TableRoundTrip |
| MaterialRandomizers.TableMaterials | Assets/Scripts/TableMaterialRandomizer.cs:49 | entry t is table renderer t's material |
| MaterialRandomizers.LastTrue | Assets/Scripts/TableMaterialRandomizer.cs:44-51 | the result is the last set flag, or −1 when no flag is set |
| MaterialRandomizers.FirstTrue | Assets/Scripts/TableMaterialRandomizer.cs:60-67 | the result is the first set flag, or −1 when no flag is set |
| MaterialRandomizers.TableRoundTrip | Assets/Scripts/TableMaterialRandomizer.cs:41-70 | the last tag swapped at the start, if it is the first restored at the end, gets its material back and nothing stays saved; later restored tags get null |
| MaterialRandomizers.TableMaterialRandomizer.constructor | Assets/Scripts/TableMaterialRandomizer.cs:29 | the randomizer starts with nothing saved |
| MaterialRandomizers.TableMaterialRandomizer.SwapTag | Assets/Scripts/TableMaterialRandomizer.cs:49-50 | the tag's material is saved and replaced by the sample |
| MaterialRandomizers.TableMaterialRandomizer.RestoreTag | Assets/Scripts/TableMaterialRandomizer.cs:65-66 | the tag gets the saved material, and the saved material is cleared |
| MaterialRandomizers.TableMaterialRandomizer.OnIterationStart | Assets/Scripts/TableMaterialRandomizer.cs:41-53 | each tag within range gets its sample and the others are untouched; the last swapped tag's material is the one saved |
| MaterialRandomizers.TableMaterialRandomizer.OnIterationEnd | Assets/Scripts/TableMaterialRandomizer.cs:55-70 | nothing changes without a saved material; otherwise the fresh end draws decide which tags get the saved material, the first of them, and null afterwards |
| ObjectPlacement.Fetched | Assets/Scripts/Data_collection/Randomizers/SingleObjectPlacementRandomizer.cs:68 | defines the instance the pool hands out for a prefab; its properties are in InUseDistinct and FetchedIsFree |
| ObjectPlacement.Placement | Assets/Scripts/Data_collection/Randomizers/SingleObjectPlacementRandomizer.cs:71-79 | defines where an instance is put; its property is in PlacementInFootprint |
| ObjectPlacement.InUse | Assets/Scripts/Data_collection/Randomizers/SingleObjectPlacementRandomizer.cs:68 | the instances in use are those the pool handed out, in order |
| ObjectPlacement.InUseDistinct | Assets/Scripts/Data_collection/Randomizers/SingleObjectPlacementRandomizer.cs:68 | the pool never hands out an instance already in use |
| ObjectPlacement.PlacementInFootprint | Assets/Scripts/Data_collection/Randomizers/SingleObjectPlacementRandomizer.cs:71-79 | the object lands within the plane's footprint, half its height above it |
| ObjectPlacement.FetchedIsFree | Assets/Scripts/Data_collection/Randomizers/SingleObjectPlacementRandomizer.cs:68 | the instance a start takes differs from every instance in use |
| ObjectPlacement.SingleObjectPlacementRandomizer.constructor | Assets/Scripts/Data_collection/Randomizers/SingleObjectPlacementRandomizer.cs:37 | nothing is pooled and nothing placed |
| ObjectPlacement.SingleObjectPlacementRandomizer.OnAwake | Assets/Scripts/Data_collection/Randomizers/SingleObjectPlacementRandomizer.cs:37-60 | the two samplers span the plane's extents on either side |
| ObjectPlacement.SingleObjectPlacementRandomizer.OnIterationStart | Assets/Scripts/Data_collection/Randomizers/SingleObjectPlacementRandomizer.cs:65-80 | a free instance of the drawn prefab is taken and placed inside the footprint; a prefab without "textured" throws after taking it |
| ObjectPlacement.SingleObjectPlacementRandomizer.OnIterationEnd | Assets/Scripts/Data_collection/Randomizers/SingleObjectPlacementRandomizer.cs:85-88 | every instance goes back to the pool |

## Behaviour the model follows from the code

- **Where the minimum-jerk trajectory ends.** The running sums in
  `minimumJerkStraightLineTrajectory` start at 0. So the offsets of a whole iteration
  add up to the target (xf, yf), not to the displacement xf − x0. The camera is always
  called with x0 = z0 = 0, so the two agree there.
- **The retry search.**
  - Every wrong hit resamples the scene. Five wrong hits then the grasp cost six casts
    and five resamples.
  - A cast that hits nothing logs an error and requests a stop, but the loop goes on
    without resampling. The newer version aims at the grasp's centre, so it then casts
    the same empty line until attempt 1000.
  - A cast that hits a collider without a parent or grandparent dereferences null when
    the grandparent is read. The exception ends the search and escapes
    `OnIterationStart` before the approach is planned.
- **The hand.**
  - The data-collection version restores the hand at the end of every iteration to the
    pose saved by the last randomization, or to the default pose if it never fired.
  - The z-rotation of the hand is drawn from the position-z sampler, not the rotation-z
    one.
- **Materials.**
  - The table randomizer draws afresh at the end of the iteration. After restoring the
    first drawn tag it clears the saved material, so every later drawn tag is given null.
  - A floor or wall renderer without the target slot requests a stop only when no
    material is saved. A material left saved by an earlier renderer hides the error.
- **Conversion.**
  - The collection script rejects the view name "Wrist_d435", which the newer labeler
    reports by default. The post-processing script accepts it.
  - The post-processing script has no check for a missing grasp annotation. Such a frame
    is filed under the previous frame's labels.
  - A view folder that already exists but is empty gets "rgb_00000" at step 0. The count
    is then 1, so the frame is sent to a directory "rgb" that does not exist.
- **Whitespace in view names.** The collection script's `strip` removes every
  whitespace character Python recognises, not only ASCII blanks. So "Wrist" padded with a
  no-break space or a line separator is still accepted.
- **Labeler dictionary.** The data-collection dictionary lists the instance
  "smalll_tool" with three l's. The model keeps the name as written.

## Left out

- **Engine behaviour taken as inputs.** Physics, rendering, line casts, `LookAt`,
  `SignedAngle`, `TransformPoint`, `Distance` and normalisation are not modelled. Their
  results are parameters: a cast oracle indexed by resample count and attempt, and the
  measured angles and distance. Rotations are kept symbolically (Euler steps and their
  composition), not as quaternions.
- **Floating point.** All arithmetic is on exact reals. `float` rounding,
  `Math.Round`, `Math.Pow` and NaN propagation beyond the `[nops]` case are not
  modelled.
- **Samplers.** Sampler objects are not modelled. Each sample is a draw in [0, 1], or a
  chosen material or prefab, passed in by the caller.
- **Engine side effects.**
  - `Debug.Log`, `print` and file I/O are not modelled.
  - Stopping play mode is recorded as a fault in a log, not as a halt.
  - The metallic and smoothness `SetFloat` calls on a sampled object material are not
    modelled.
- **Object pool.**
  - `GameObjectOneWayCache` is abstracted to "the instances in use, named by prefab and
    copy number".
  - The "Foreground Object" container and the pool's parenting are not modelled.
  - `ResetAllObjects` empties the set of instances in use.
- **Labeler setup.** Its `Setup` (registering the annotation definition) and the missing
  "textured" child are not modelled. The labeler assumes every instance has one. A
  missing "Foreground Object" is modelled as a thrown exception.
- **Conversion scripts.**
  - Argument parsing, `glob` and JSON parsing are inputs: the globbed names and the
    parsed captures.
  - `os.path.join` is modelled as joining with '/'.
  - The two existence checks are on a model of the disk: `isdir` for sequence folders,
    and `exists` as the set of present files.
- **Other randomizers.** The ceiling-lamp randomizers and the randomizer tag components
  are outside this model. Tags are modelled as the list of renderers they point at.
- **Table renderer.** The table randomizer's `Renderer.material` is one slot per tag.
- Unsupported hand models are modelled only as far as the scripts go: a logged fault
  and, for the pose, the neutral pose.
- **Scope of `WristCamera.WristCameraMovement.OnIterationStart`.** Its own ensures states
  the lifecycle and the queue. What happens to the hand, the scene and the approach is
  stated on `BeginIteration` and `RunIteration`, which it calls.
- **Legacy camera aiming.** The legacy `OnIterationStart` re-aims the camera's parent
  before aiming the camera. That parent rotation is not modelled, because only the
  camera's final aim enters the model, and that aim is an input.
- **The model's negative-integer limits.**
  - A negative step or a negative number of frames per iteration is not modelled beyond
    what the contracts state.
  - Integer overflow of the iteration counter is not modelled.
- WristCamera.WristCameraMovement.PlaceForApproach: after a search that gives up, the
  approach point is the engine's point `giveUpTarget`, an input. The model does not derive
  it as the last attempt's world point re-expressed in the resampled scene's frame.
- WristCamera.WristCameraMovement.OnIterationStart: after a null-reference exception the
  pair stays selected with its grasp active, and `Valid()` is not promised. What the engine
  does once an exception escapes is not modelled.
