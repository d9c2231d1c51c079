/**
 * `Tracker`: the owner of the track list. `Update` runs the per-frame
 * algorithm in place on `Track` objects, and is proved to leave the
 * tracks in the state that `TrackerSpec.FrameUpdate` describes.
 */
module Tracking {
  import opened Wrappers
  import opened Geometry
  import opened Motion
  import opened Appearance
  import opened Selection
  import opened Tracks
  import opened TrackerSpec

  /** No track object occurs twice in the list. */
  predicate Distinct(ts: seq<Track>)
  {
    forall i, j :: 0 <= i < j < |ts| ==> ts[i] != ts[j]
  }

  /** The snapshots of a list of track objects. */
  ghost function States(ts: seq<Track>): (s: seq<TrackState>)
    reads ts
    ensures |s| == |ts| && forall j :: 0 <= j < |ts| ==> s[j] == ts[j].State()
  {
    seq(|ts|, j requires 0 <= j < |ts| reads ts => ts[j].State())
  }

  class Tracker {
    /** The live tracks in creation order. */
    var tracks: seq<Track>
    /** The id the next spawned track gets (`Track.count`). */
    var nextId: nat
    const iouThreshold: real
    /** `compare_hist`. */
    const similarity: Similarity
    /** The abstract parts of every track's Kalman filter. */
    const estimator: Estimator

    ghost function Snapshot(): (s: seq<TrackState>)
      reads this, tracks
      ensures |s| == |tracks| && forall j :: 0 <= j < |tracks| ==> s[j] == tracks[j].State()
    {
      States(tracks)
    }

    ghost predicate Valid()
      reads this, tracks
    {
      Distinct(tracks) && WellFormed(Snapshot(), nextId)
    }

    /** `Tracker(iou_threshold=0.3)`, given the similarity and the estimator the tracks use. */
    constructor (similarity: Similarity, estimator: Estimator, iouThreshold: real := DefaultIouThreshold)
      ensures Valid() && tracks == [] && nextId == 0
      ensures this.iouThreshold == iouThreshold
      ensures this.similarity == similarity && this.estimator == estimator
    {
      this.tracks := [];
      this.nextId := 0;
      this.iouThreshold := iouThreshold;
      this.similarity := similarity;
      this.estimator := estimator;
    }

    /** The inner loop of the IoU pass: the track the box claims, if any. */
    method BestByIou(box: Box, assignedTracks: set<nat>) returns (best: Option<nat>)
      ensures best == IouChoice(Snapshot(), box, assignedTracks, iouThreshold)
    {
      ghost var c := IouCandidates(Snapshot(), box, assignedTracks);
      var bestIou := 0.0;
      best := None;
      for k := 0 to |tracks|
        invariant Best(best, bestIou) == Scan(c[..k], iouThreshold)
      {
        assert c[..k + 1][..k] == c[..k];
        var track := tracks[k];
        if track.id in assignedTracks {
          continue;
        }
        var score := Iou(track.bbox, box);
        if score > bestIou && score > iouThreshold {
          bestIou := score;
          best := Some(k);
        }
      }
      assert c[..|tracks|] == c;
    }

    /** The inner loop of the appearance pass: the best-scoring unassigned track with a histogram. */
    method BestByAppearance(h: Hist, assignedTracks: set<nat>) returns (bestScore: real, best: Option<nat>)
      ensures Best(best, bestScore) == AppearanceBest(Snapshot(), h, assignedTracks, similarity)
    {
      ghost var c := AppearanceCandidates(Snapshot(), h, assignedTracks, similarity);
      bestScore := 0.0;
      best := None;
      for k := 0 to |tracks|
        invariant Best(best, bestScore) == Scan(c[..k], 0.0)
      {
        assert c[..k + 1][..k] == c[..k];
        var track := tracks[k];
        if track.id in assignedTracks || track.hist.None? {
          continue;
        }
        var score := similarity(h, track.hist.value);
        if score > bestScore {
          bestScore := score;
          best := Some(k);
        }
      }
      assert c[..|tracks|] == c;
    }

    /** Step 1 of `update`: every track is predicted once, in list order. */
    method PredictTracks()
      requires Distinct(tracks)
      modifies tracks
      ensures Snapshot() == PredictAll(old(Snapshot()), estimator)
    {
      ghost var before := Snapshot();
      for k := 0 to |tracks|
        invariant forall j :: 0 <= j < k ==> tracks[j].State() == Predicted(before[j], estimator)
        invariant forall j :: k <= j < |tracks| ==> tracks[j].State() == before[j]
      {
        tracks[k].Predict(estimator);
      }
      assert Snapshot() == PredictAll(before, estimator);
    }

    /** Step 2 of `update`: the greedy IoU pass over the detections, in input order. */
    method AssociateByIou(dets: seq<Detection>, frame: Frame) returns (assignedTracks: set<nat>, assignedDetections: set<nat>)
      requires Distinct(tracks)
      modifies tracks
      ensures Pass(Snapshot(), assignedTracks, assignedDetections, nextId)
              == IouPass(Pass(old(Snapshot()), {}, {}, nextId), dets, frame, iouThreshold, estimator, |dets|)
    {
      ghost var p0 := Pass(Snapshot(), {}, {}, nextId);
      assignedTracks, assignedDetections := {}, {};
      for i := 0 to |dets|
        invariant Pass(Snapshot(), assignedTracks, assignedDetections, nextId)
                  == IouPass(p0, dets, frame, iouThreshold, estimator, i)
      {
        assignedTracks, assignedDetections := MatchByIou(i, dets[i], frame, assignedTracks, assignedDetections);
      }
    }

    /** One detection of the IoU pass: claim the best unassigned track above the threshold, if any. */
    method MatchByIou(i: nat, det: Detection, frame: Frame, assignedTracks: set<nat>, assignedDetections: set<nat>)
      returns (assignedTracks': set<nat>, assignedDetections': set<nat>)
      requires Distinct(tracks)
      modifies tracks
      ensures Pass(Snapshot(), assignedTracks', assignedDetections', nextId)
              == IouStep(Pass(old(Snapshot()), assignedTracks, assignedDetections, nextId), i, det, frame, iouThreshold, estimator)
    {
      assignedTracks', assignedDetections' := assignedTracks, assignedDetections;
      var best := BestByIou(det.box, assignedTracks);
      if best.Some? {
        var k := best.value;
        var track := tracks[k];
        ghost var before := Snapshot();
        track.Update(det.box, estimator);
        if !frame.cropEmpty(det.box) {
          track.hist := Some(frame.histogramOf(det.box));
        }
        assignedTracks' := assignedTracks + {track.id};
        assignedDetections' := assignedDetections + {i};
        assert forall j :: 0 <= j < |tracks| && j != k ==> tracks[j].State() == before[j];
      }
    }

    /**
     * Steps 3 and 4 of `update`: the greedy appearance pass over the detections
     * the IoU pass left, spawning a track for each one it cannot re-identify.
     */
    method AssociateByAppearance(dets: seq<Detection>, frame: Frame, assignedTracks: set<nat>, assignedDetections: set<nat>)
      requires Distinct(tracks)
      modifies this, tracks
      ensures Distinct(tracks)
      ensures old(tracks) <= tracks
      ensures forall j :: |old(tracks)| <= j < |tracks| ==> fresh(tracks[j])
      ensures Snapshot() == AppearancePass(Pass(old(Snapshot()), assignedTracks, assignedDetections, old(nextId)),
                                           dets, frame, similarity, estimator, |dets|).tracks
      ensures nextId == AppearancePass(Pass(old(Snapshot()), assignedTracks, assignedDetections, old(nextId)),
                                       dets, frame, similarity, estimator, |dets|).nextId
    {
      ghost var p1 := Pass(Snapshot(), assignedTracks, assignedDetections, nextId);
      var claimed := assignedTracks;
      for i := 0 to |dets|
        invariant Distinct(tracks)
        invariant old(tracks) <= tracks
        invariant forall j :: |old(tracks)| <= j < |tracks| ==> fresh(tracks[j])
        invariant Pass(Snapshot(), claimed, assignedDetections, nextId)
                  == AppearancePass(p1, dets, frame, similarity, estimator, i)
      {
        claimed := MatchByAppearance(i, dets[i], frame, claimed, assignedDetections);
      }
    }

    /**
     * One detection of the appearance pass: skip it when the IoU pass matched it
     * or its crop is empty; otherwise re-identify the best unassigned track with a
     * histogram if it scores above 0.85, or else spawn a new track.
     */
    method MatchByAppearance(i: nat, det: Detection, frame: Frame, assignedTracks: set<nat>, assignedDetections: set<nat>)
      returns (assignedTracks': set<nat>)
      requires Distinct(tracks)
      modifies this, tracks
      ensures Distinct(tracks)
      ensures old(tracks) <= tracks
      ensures forall j :: |old(tracks)| <= j < |tracks| ==> fresh(tracks[j])
      ensures Pass(Snapshot(), assignedTracks', assignedDetections, nextId)
              == AppearanceStep(Pass(old(Snapshot()), assignedTracks, assignedDetections, old(nextId)),
                                i, det, frame, similarity, estimator)
    {
      assignedTracks' := assignedTracks;
      if i in assignedDetections {
        return;
      }
      if frame.cropEmpty(det.box) {
        return;
      }
      var h := frame.histogramOf(det.box);
      var bestScore, best := BestByAppearance(h, assignedTracks);
      if bestScore > AppearanceThreshold {
        var k := best.value;
        Reidentify(k, det.box, h);
        assignedTracks' := assignedTracks + {tracks[k].id};
      } else {
        Spawn(det.box, h);
      }
    }

    /** The re-identified track k is corrected with the box and takes the histogram. */
    method Reidentify(k: nat, box: Box, h: Hist)
      requires k < |tracks| && Distinct(tracks)
      modifies tracks
      ensures Snapshot() == old(Snapshot())[k := Corrected(old(Snapshot())[k], box, estimator).(hist := Some(h))]
    {
      var track := tracks[k];
      ghost var before := Snapshot();
      track.Update(box, estimator);
      track.hist := Some(h);
      assert forall j :: 0 <= j < |tracks| && j != k ==> tracks[j].State() == before[j];
    }

    /** A new track for the box, with the next id and the histogram, goes to the end of the list. */
    method Spawn(box: Box, h: Hist)
      requires Distinct(tracks)
      modifies this
      ensures Distinct(tracks)
      ensures |tracks| == |old(tracks)| + 1 && tracks[..|old(tracks)|] == old(tracks) && fresh(tracks[|old(tracks)|])
      ensures Snapshot() == old(Snapshot()) + [Newborn(old(nextId), box, h)]
      ensures nextId == old(nextId) + 1
    {
      ghost var before := Snapshot();
      var track := new Track(nextId, box);
      track.hist := Some(h);
      tracks := tracks + [track];
      nextId := nextId + 1;
      assert forall j :: 0 <= j < |tracks| - 1 ==> tracks[j].State() == before[j];
    }

    /**
     * `Tracker.update(detections, frame)`: predict, IoU pass, appearance pass and
     * spawning. The tracks end in the state `FrameUpdate` gives, the old track
     * objects keep their places, and the tracker's invariant is kept.
     */
    method Update(dets: seq<Detection>, frame: Frame)
      requires Valid()
      modifies this, tracks
      ensures Valid()
      ensures Snapshot() == FrameUpdate(old(Snapshot()), old(nextId), dets, frame, iouThreshold, similarity, estimator).tracks
      ensures nextId == FrameUpdate(old(Snapshot()), old(nextId), dets, frame, iouThreshold, similarity, estimator).nextId
      ensures old(tracks) <= tracks
      ensures forall j :: |old(tracks)| <= j < |tracks| ==> fresh(tracks[j])
    {
      ghost var ts := Snapshot();
      PredictTracks();
      var assignedTracks, assignedDetections := AssociateByIou(dets, frame);
      AssociateByAppearance(dets, frame, assignedTracks, assignedDetections);
      FrameUpdateKeepsWellFormed(ts, old(nextId), dets, frame, iouThreshold, similarity, estimator);
    }
  }
}
