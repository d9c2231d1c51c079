/**
 * Frame-by-frame behaviour of the tracker on small inputs: a detection on an
 * empty tracker spawns a track, a detection overlapping the prediction keeps
 * its id, a frame without detections only predicts, two detections competing
 * for one track are served in input order, a lost track is re-identified
 * by appearance, and two look-alikes in one frame end as one track.
 */
module Scenarios {
  import opened Wrappers
  import opened Geometry
  import opened Motion
  import opened Appearance
  import opened Selection
  import opened Tracks
  import opened TrackerSpec

  /** A frame with no detections predicts every track and changes nothing else. */
  lemma NoDetectionsOnlyPredicts(ts: seq<TrackState>, nextId: nat, frame: Frame,
                                 threshold: real, sim: Similarity, est: Estimator)
    ensures FrameUpdate(ts, nextId, [], frame, threshold, sim, est) == Pass(PredictAll(ts, est), {}, {}, nextId)
  {
  }

  /** On an empty tracker, one detection with a non-empty crop spawns one track with the counter's id. */
  lemma FirstDetectionSpawns(nextId: nat, det: Detection, frame: Frame,
                             threshold: real, sim: Similarity, est: Estimator)
    requires !frame.cropEmpty(det.box)
    ensures FrameUpdate([], nextId, [det], frame, threshold, sim, est).tracks
            == [Newborn(nextId, det.box, frame.histogramOf(det.box))]
    ensures FrameUpdate([], nextId, [det], frame, threshold, sim, est).nextId == nextId + 1
  {
    var p0 := Pass([], {}, {}, nextId);
    assert PredictAll([], est) == [];
    assert IouCandidates([], det.box, {}) == [];
    assert IouChoice([], det.box, {}, threshold) == None;
    assert IouPass(p0, [det], frame, threshold, est, 1) == IouStep(p0, 0, det, frame, threshold, est);
    assert FirstPass([], nextId, [det], frame, threshold, est) == p0;
    assert AppearanceCandidates([], frame.histogramOf(det.box), {}, sim) == [];
  }

  /** The first box seen and the second, moved by (2, 1): their overlap is 342 of a 458 union. */
  const FirstBox := Box(10, 10, 20, 20)
  const SecondBox := Box(12, 11, 20, 20)

  lemma FirstAndSecondBoxOverlap()
    ensures Iou(FirstBox, SecondBox) == 342.0 / 458.0
    ensures Iou(FirstBox, SecondBox) > DefaultIouThreshold
  {
    assert Intersection(FirstBox, SecondBox) == 342;
    assert Union(FirstBox, SecondBox) == 458;
  }

  /**
   * The track spawned by the first box keeps its id on the next frame: its
   * prediction is the first box, which overlaps the second box above the
   * default threshold, so the IoU pass corrects it and nothing is spawned.
   * Its box stays the first box until the next prediction.
   */
  lemma SecondFrameKeepsId(h: Hist, frame: Frame, sim: Similarity, est: Estimator)
    ensures var r := FrameUpdate([Newborn(0, FirstBox, h)], 1, [Detection(SecondBox, 0.9)], frame,
                                 DefaultIouThreshold, sim, est);
            |r.tracks| == 1 && r.nextId == 1
            && r.tracks[0].id == 0 && r.tracks[0].hits == 1 && r.tracks[0].bbox == FirstBox
  {
    var t := Newborn(0, FirstBox, h);
    var dets := [Detection(SecondBox, 0.9)];
    var predicted := Predicted(t, est);
    FirstPredictKeepsBox(FirstBox, est);
    assert predicted.bbox == FirstBox;
    assert PredictAll([t], est) == [predicted];
    FirstAndSecondBoxOverlap();
    var c := IouCandidates([predicted], SecondBox, {});
    assert c == [Some(Iou(FirstBox, SecondBox))];
    assert c[..0] == [];
    assert IouChoice([predicted], SecondBox, {}, DefaultIouThreshold) == Some(0);
    var p1 := IouMatched(Pass([predicted], {}, {}, 1), 0, dets[0], frame, est, 0);
    assert FirstPass([t], 1, dets, frame, DefaultIouThreshold, est) == p1;
    assert 0 in p1.assignedDets;
  }

  /**
   * Two detections both above the threshold against the only track: the
   * first claims it, and the second is left unmatched by the IoU pass.
   */
  lemma FirstClaimWins(t: TrackState, d0: Detection, d1: Detection, nextId: nat, frame: Frame,
                       threshold: real, est: Estimator)
    requires Iou(t.bbox, d0.box) > threshold && Iou(t.bbox, d0.box) > 0.0
    ensures var r := IouPass(Pass([t], {}, {}, nextId), [d0, d1], frame, threshold, est, 2);
            r.assignedDets == {0} && r.assignedTracks == {t.id}
            && r.tracks[0].hits == t.hits + 1
            && r.tracks[0].kf == est.correct(t.kf, d0.box)
  {
    var dets := [d0, d1];
    var p0 := Pass([t], {}, {}, nextId);
    var c0 := IouCandidates([t], d0.box, {});
    assert c0 == [Some(Iou(t.bbox, d0.box))];
    assert c0[..0] == [];
    assert IouChoice([t], d0.box, {}, threshold) == Some(0);
    var p1 := IouMatched(p0, 0, d0, frame, est, 0);
    assert IouPass(p0, dets, frame, threshold, est, 1) == p1;
    var c1 := IouCandidates(p1.tracks, d1.box, p1.assignedTracks);
    assert c1 == [None];
    assert c1[..0] == [];
    assert IouChoice(p1.tracks, d1.box, p1.assignedTracks, threshold) == None;
    assert IouPass(p0, dets, frame, threshold, est, 2) == p1;
  }

  /**
   * A detection that overlaps no predicted box enough but whose histogram is
   * more than 0.85 similar to the only track's reuses that track's id: the
   * track is corrected and takes the new histogram, and nothing is spawned.
   */
  lemma ReidentifiedByAppearance(t: TrackState, g: Hist, nextId: nat, det: Detection, frame: Frame,
                                 threshold: real, sim: Similarity, est: Estimator)
    requires t.hist == Some(g)
    requires Iou(Predicted(t, est).bbox, det.box) <= threshold
    requires !frame.cropEmpty(det.box)
    requires sim(frame.histogramOf(det.box), g) > AppearanceThreshold
    ensures var r := FrameUpdate([t], nextId, [det], frame, threshold, sim, est);
            r.nextId == nextId && |r.tracks| == 1
            && r.tracks[0].id == t.id && r.tracks[0].hits == t.hits + 1
            && r.tracks[0].hist == Some(frame.histogramOf(det.box))
  {
    var dets := [det];
    var predicted := Predicted(t, est);
    assert PredictAll([t], est) == [predicted];
    var c := IouCandidates([predicted], det.box, {});
    assert c == [Some(Iou(predicted.bbox, det.box))];
    assert c[..0] == [];
    assert IouChoice([predicted], det.box, {}, threshold) == None;
    var p1 := Pass([predicted], {}, {}, nextId);
    assert IouPass(p1, dets, frame, threshold, est, 1) == IouStep(p1, 0, det, frame, threshold, est);
    assert FirstPass([t], nextId, dets, frame, threshold, est) == p1;
    var h := frame.histogramOf(det.box);
    var a := AppearanceCandidates([predicted], h, {}, sim);
    assert a == [Some(sim(h, g))];
    assert a[..0] == [];
    assert AppearanceBest([predicted], h, {}, sim) == Best(Some(0), sim(h, g));
  }

  /**
   * The appearance pass scans the live list: on an empty tracker, the second of
   * two look-alike detections re-identifies the track the first just spawned.
   */
  lemma LookAlikesInOneFrameMerge(d0: Detection, d1: Detection, nextId: nat, frame: Frame,
                                  threshold: real, sim: Similarity, est: Estimator)
    requires !frame.cropEmpty(d0.box) && !frame.cropEmpty(d1.box)
    requires sim(frame.histogramOf(d1.box), frame.histogramOf(d0.box)) > AppearanceThreshold
    ensures var r := FrameUpdate([], nextId, [d0, d1], frame, threshold, sim, est);
            |r.tracks| == 1 && r.nextId == nextId + 1
            && r.tracks[0].id == nextId && r.tracks[0].hits == 1 && r.tracks[0].bbox == d0.box
            && r.tracks[0].hist == Some(frame.histogramOf(d1.box))
  {
    var dets := [d0, d1];
    var p0 := Pass([], {}, {}, nextId);
    assert PredictAll([], est) == [];
    assert IouCandidates([], d0.box, {}) == [];
    assert IouChoice([], d0.box, {}, threshold) == None;
    assert IouCandidates([], d1.box, {}) == [];
    assert IouChoice([], d1.box, {}, threshold) == None;
    assert IouPass(p0, dets, frame, threshold, est, 1) == p0;
    assert FirstPass([], nextId, dets, frame, threshold, est) == p0;
    var h0 := frame.histogramOf(d0.box);
    var h1 := frame.histogramOf(d1.box);
    assert AppearanceCandidates([], h0, {}, sim) == [];
    var p1 := Pass([Newborn(nextId, d0.box, h0)], {}, {}, nextId + 1);
    assert AppearancePass(p0, dets, frame, sim, est, 1) == p1;
    var a := AppearanceCandidates(p1.tracks, h1, {}, sim);
    assert a == [Some(sim(h1, h0))];
    assert a[..0] == [];
    assert AppearanceBest(p1.tracks, h1, {}, sim) == Best(Some(0), sim(h1, h0));
  }
}
