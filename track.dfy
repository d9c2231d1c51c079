/**
 * One tracked object (`Track` in the tracker): an id, its motion filter,
 * the box last read from the filter, the hit and miss counters, and the
 * last appearance histogram.
 */
module Tracks {
  import opened Wrappers
  import opened Geometry
  import opened Motion
  import opened Appearance

  /** A snapshot of a track's fields. */
  datatype TrackState = TrackState(id: nat, kf: Filter, bbox: Box, hits: nat, noLosses: nat, hist: Option<Hist>)

  /** The state `Track.__init__` gives a track for `box` and the id counter's current value. */
  function Spawned(id: nat, box: Box): TrackState
  {
    TrackState(id, Initial(box), box, 0, 0, None)
  }

  /** `Track.predict`: advance the filter, then read the integer box back from it. */
  function Predicted(s: TrackState, est: Estimator): TrackState
  {
    var kf := Predict(s.kf, est);
    s.(kf := kf, bbox := Readout(kf.mean))
  }

  /** `Track.update`: correct the filter by the box, count a hit, clear the misses; the box stays. */
  function Corrected(s: TrackState, box: Box, est: Estimator): TrackState
  {
    s.(kf := est.correct(s.kf, box), hits := s.hits + 1, noLosses := 0)
  }

  /** A new track, predicted on the next frame, still reports the box it was spawned with. */
  lemma SpawnedThenPredicted(id: nat, box: Box, est: Estimator)
    ensures Predicted(Spawned(id, box), est).bbox == box
  {
    FirstPredictKeepsBox(box, est);
  }

  class Track {
    const id: nat
    var kf: Filter
    var bbox: Box
    var hits: nat
    var noLosses: nat
    var hist: Option<Hist>

    function State(): TrackState
      reads this
    {
      TrackState(id, kf, bbox, hits, noLosses, hist)
    }

    constructor (id: nat, bbox: Box)
      ensures State() == Spawned(id, bbox)
    {
      this.id := id;
      this.kf := Initial(bbox);
      this.bbox := bbox;
      this.hits := 0;
      this.noLosses := 0;
      this.hist := None;
    }

    method Predict(est: Estimator)
      modifies this
      ensures State() == Predicted(old(State()), est)
    {
      kf := Motion.Predict(kf, est);
      bbox := Readout(kf.mean);
    }

    method Update(box: Box, est: Estimator)
      modifies this
      ensures State() == Corrected(old(State()), box, est)
    {
      kf := est.correct(kf, box);
      hits := hits + 1;
      noLosses := 0;
    }
  }
}
