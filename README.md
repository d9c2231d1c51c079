# Multi-object tracker: a verified model

This project models the multi-object tracker of a small video-tracking
pipeline (`src/tracker.py`). Each frame, a detector reports boxes. The
tracker keeps a list of tracks. Each track has an id, a constant-velocity
Kalman filter over `[x, y, w, h, vx, vy, vw]`, an integer box (the one it was
created with, or the one last read from its filter), hit and miss counters, and an optional colour histogram.
`Tracker.update(detections, frame)` runs four steps, in this order:

1. It predicts every existing track once.
2. A greedy IoU pass goes through the detections in input order. Each detection
   claims the unassigned track with the largest IoU, provided that IoU is
   strictly above the threshold (0.3 by default). Ties go to the earliest track.
   The claimed track is corrected with the box, and its histogram is refreshed
   when the crop is not empty.
3. A greedy appearance pass takes the detections the IoU pass left. A detection
   whose crop is empty is dropped. Otherwise the detection is compared with every
   unassigned track that has a histogram. The best track is re-identified if its
   similarity is strictly above 0.85.
4. Any other detection spawns a new track. The new track gets the next id and
   the detection's histogram.

The project has these modules:

- `Geometry` (geometry.dfy): integer boxes and `Iou`, with its symmetry,
  bounds and special cases.
- `Motion` (motion.dfy): the filter's state, the transition F and read-out H of
  `create_kf` as matrices, the mean step of a prediction, and the integer
  read-out. `int()` truncates toward zero.
- `Appearance` (appearance.dfy): histograms, the frame, and the 0.85 threshold.
- `Selection` (selection.dfy): the greedy scan that both inner loops perform.
  The running best starts at 0 and is replaced only by a strictly larger score
  that also clears a floor. It is proved to pick the first maximum.
- `Tracks` (track.dfy): `class Track` with the fields the source mutates, and
  `TrackState`, a value snapshot of them.
- `TrackerSpec` (tracker_spec.dfy): one frame update as pure functions over
  snapshots, plus the lemmas about it.
- `Tracking` (tracker.dfy): `class Tracker`. Its `Update` works in place on
  `Track` objects. It is proved to leave the tracks exactly in the state
  `TrackerSpec.FrameUpdate` gives, and to keep the tracker's invariant.
- `Scenarios` (scenarios.dfy): frame-by-frame behaviour on small inputs.

Details of the code the model keeps:

- `Track.update` does not recompute `bbox`. Only `predict` assigns it. A track
  matched in a frame therefore reports its predicted box until the next frame's
  prediction, not a box moved toward the detection (`Scenarios.SecondFrameKeepsId`).
- The appearance pass scans the live track list. A track spawned earlier in the
  same pass is therefore already a candidate for later detections.
- The appearance pass adds re-identified tracks to `assigned_tracks`, but adds
  nothing to `assigned_detections`.
- `no_losses` is only ever reset to 0, and no track is ever removed. The model
  keeps both facts: every miss count is 0, and tracks are only appended.

## Model

| member | source | states |
|---|---|---|
| Geometry.Iou | src/tracker.py:56-67 | IoU is 0 when the union area is 0 (no division) and 0 when the clamped intersection is 0 |
| Geometry.IouSymmetric | src/tracker.py:59-67 | `iou(a, b) == iou(b, a)` for all integer boxes |
| Geometry.IouTranslationInvariant | src/tracker.py:59-67 | shifting both boxes by the same offset leaves IoU unchanged |
| Geometry.IntersectionWithinAreas | src/tracker.py:59-65 | for boxes with non-negative sides, the clamped intersection is between 0 and each box's area |
| Geometry.IouBounded | src/tracker.py:59-67 | for boxes with non-negative sides, IoU lies in [0, 1] |
| Geometry.IouSelf | src/tracker.py:59-67 | a box with positive width and height has IoU 1 with itself |
| Geometry.IouDisjoint | src/tracker.py:59-67 | boxes separated along x or y have IoU 0 |
| Geometry.IouPositiveIffOverlap | src/tracker.py:59-67 | for boxes with non-negative sides, IoU is positive if and only if they overlap on both axes |
| Motion.TransitionIsF | src/tracker.py:19-27 | multiplying by the matrix F adds vx, vy and vw to x, y and w, and keeps h and the velocities |
| Motion.ObservationIsH | src/tracker.py:28-33 | multiplying by the matrix H reads back exactly `[x, y, w, h]` |
| Motion.Trunc | src/tracker.py:43-44 | `int()` of a float truncates toward zero: the result is within 1 of the argument and not farther from 0 |
| Motion.TruncWhole | src/tracker.py:44 | truncating a whole number gives that number back |
| Motion.FirstPredictKeepsBox | src/tracker.py:38-44 | a filter built from a box has zero velocity, so its first prediction reads back the same box |
| Selection.Scan | src/tracker.py:78-86 | the scan's result is either no index with score 0, or an index in range whose candidate is present with exactly that score |
| Selection.ScanIsFirstMaximum | src/tracker.py:78-86 | the scan picks nothing if and only if no present candidate beats both 0 and the floor; otherwise its pick qualifies, is at least every present candidate, and is strictly above every earlier one (first maximum) |
| Tracks.SpawnedThenPredicted | src/tracker.py:38-44 | a new track predicted on the next frame still reports the box it was spawned from |
| Tracks.Track.constructor | src/tracker.py:8-15 | a new track has the given id, a filter built from the box, that box, 0 hits, 0 misses and no histogram |
| Tracks.Track.Predict | src/tracker.py:41-44 | the filter's mean is advanced by F, its covariance by the estimator, and `bbox` becomes the truncated read-out; id, counters and histogram are unchanged |
| Tracks.Track.Update | src/tracker.py:46-49 | the filter is corrected by the box, `hits` goes up by 1, `no_losses` becomes 0; `bbox`, id and histogram are unchanged |
| TrackerSpec.IouChoiceIsGreedy | src/tracker.py:78-86 | the IoU pass picks no track if and only if no unassigned track is strictly above both the threshold and 0; otherwise it picks an unassigned track of maximal IoU, the first such in list order |
| TrackerSpec.GreedyIouChoiceUnique | src/tracker.py:78-86 | at most one track satisfies the greedy first-maximum rule |
| TrackerSpec.IouStepOutcome | src/tracker.py:77-95 | a detection with no candidate changes nothing; otherwise the greedy choice alone is corrected (filter corrected, one more hit, miss count reset to 0, box kept), its histogram is replaced only when the crop is non-empty, and its id and the detection index are marked assigned |
| TrackerSpec.AppearanceChoiceIsGreedy | src/tracker.py:108-118 | the best appearance score is above 0.85 if and only if some unassigned track with a histogram scores above 0.85; the track picked then has the maximal score and is the first such |
| TrackerSpec.AppearanceStepOutcome | src/tracker.py:98-125 | a detection matched by IoU, or with an empty crop, changes nothing; otherwise either the greedy re-identified track is corrected and takes the histogram, or exactly one new track with the next id and the histogram is appended |
| TrackerSpec.FrameUpdateKeepsWellFormed | src/tracker.py:69-125 | after a frame, ids are still strictly increasing in list order and below the counter, and every miss count is 0 |
| TrackerSpec.FrameUpdateOnlyAppends | src/tracker.py:69-125 | no track is removed or reordered; new tracks follow with consecutive ids from the counter; their number is at most the number of detections the IoU pass left unmatched |
| TrackerSpec.FrameUpdatePredictsOnce | src/tracker.py:69-125 | every track present at entry is predicted exactly once (its box is its filter's predicted read-out); an unmatched track keeps the predicted filter and its histogram; a matched one holds the predicted filter corrected by one of the frame's boxes; spawned tracks are not predicted: each holds a detection's box, a histogram, and the filter built from its box, corrected once by a frame's box if it was re-identified |
| TrackerSpec.FrameUpdateMatchesAtMostOnce | src/tracker.py:73-121 | across both passes each track present at entry gains at most one hit, and each spawned track has at most one hit |
| Tracking.Tracker.constructor | src/tracker.py:52-54 | a new tracker has no tracks, the given IoU threshold (0.3 when none is given), and a counter at 0 |
| Tracking.Tracker.BestByIou | src/tracker.py:78-86 | the inner IoU loop returns exactly the greedy IoU choice (see IouChoiceIsGreedy) |
| Tracking.Tracker.BestByAppearance | src/tracker.py:108-116 | the inner appearance loop returns exactly the best score and track of the greedy appearance scan |
| Tracking.Tracker.PredictTracks | src/tracker.py:70-71 | each track in the list is predicted once |
| Tracking.Tracker.MatchByIou | src/tracker.py:78-95 | one iteration of the IoU pass, on the track objects, does what the pure IoU step does |
| Tracking.Tracker.AssociateByIou | src/tracker.py:73-95 | the IoU loop leaves the tracks and both assigned sets as the pure IoU pass over all detections does |
| Tracking.Tracker.Reidentify | src/tracker.py:118-121 | the re-identified track is corrected and takes the new histogram; no other track changes |
| Tracking.Tracker.Spawn | src/tracker.py:122-125 | a fresh track with the counter's id, the box and the histogram is appended; the counter goes up by 1; old tracks are untouched |
| Tracking.Tracker.MatchByAppearance | src/tracker.py:99-125 | one iteration of the appearance pass, on the track objects, does what the pure appearance step does; the list only grows, and only by fresh tracks |
| Tracking.Tracker.AssociateByAppearance | src/tracker.py:98-125 | the appearance loop leaves the tracks and the counter as the pure appearance pass does; old track objects keep their places |
| Tracking.Tracker.Update | src/tracker.py:69-125 | `update` leaves the track snapshots and the counter exactly as `FrameUpdate` does, keeps the invariant (distinct objects, increasing ids below the counter, no misses), and only appends fresh tracks |
| Scenarios.NoDetectionsOnlyPredicts | src/tracker.py:69-71 | a frame with no detections predicts every track and changes nothing else |
| Scenarios.FirstDetectionSpawns | src/tracker.py:98-125 | on an empty tracker, a detection with a non-empty crop spawns one track with the counter's id, its box and its histogram |
| Scenarios.FirstAndSecondBoxOverlap | src/tracker.py:56-67 | the boxes (10,10,20,20) and (12,11,20,20) have IoU 342/458, above 0.3 |
| Scenarios.SecondFrameKeepsId | src/tracker.py:69-95 | a track spawned at (10,10,20,20), seen next at (12,11,20,20), keeps id 0 with one hit and no new track, and its box is still (10,10,20,20) |
| Scenarios.FirstClaimWins | src/tracker.py:77-95 | when two detections overlap the only track, the first in input order claims it and the second stays unmatched by the IoU pass |
| Scenarios.LookAlikesInOneFrameMerge | src/tracker.py:108-125 | on an empty tracker, two detections in one frame whose histograms score above 0.85 end as one track: the second re-identifies the track the first just spawned, leaving one track with one hit and the counter advanced by one |
| Scenarios.ReidentifiedByAppearance | src/tracker.py:97-121 | a detection that fails the IoU test but whose histogram scores above 0.85 against the only track reuses that track's id; nothing is spawned |

## Left out

- The Kalman filter's numerics are abstract: the covariance propagation, the gain, the correction, and the noise scalings of R and Q (src/tracker.py:34-37). The only covariance fixed by the model is the initial `P = 10 I`. An `Estimator` supplies the covariance step of `predict` and the whole measurement update. As a result, "predict then update with the prior box restores the box" cannot be stated.
- Floating point is modelled as exact real arithmetic. Rounding, overflow, infinities and NaN scores are not modelled.
- `get_color_histogram` and `compare_hist` (src/reid.py) are not part of this model. The histogram of a crop and the similarity of two histograms are parameters.
- Cropping with numpy slices is not modelled. "The crop is empty" is a parameter predicate of the frame.
- src/detector.py and src/main.py are not part of this model. They cover the detector call, video input and output, CSV logging and display. A detection is a box and a confidence, and the tracker never reads the confidence.
- Tracking.Tracker.constructor: `Track.count` is a class attribute shared by every tracker in the process. The model gives each tracker its own counter starting at 0, so it matches the source only for a single tracker.
- Tracking.Tracker.MatchByIou and Tracking.Tracker.MatchByAppearance: the source inlines these loop bodies. The model moves each body into its own method, and a `continue` becomes a return.
