/**
 * The greedy choice both association passes make: scan the tracks in list
 * order, keep a running best score that starts at 0, and replace the best
 * only on a strictly larger score that also clears a floor.
 */
module Selection {
  import opened Wrappers

  /** The best index found (None when nothing beat the start value) and its score. */
  datatype Best = Best(index: Option<nat>, score: real)

  /**
   * Candidate j is `Some(score)` when track j may be chosen, `None` when it is
   * skipped. The result is the scan over all of `c`.
   */
  function Scan(c: seq<Option<real>>, floor: real): (b: Best)
    ensures b.score >= 0.0
    ensures b.index.None? ==> b.score == 0.0
    ensures b.index.Some? ==> b.index.value < |c| && c[b.index.value] == Some(b.score)
    decreases |c|
  {
    if c == [] then Best(None, 0.0)
    else
      var prev := Scan(c[..|c| - 1], floor);
      match c[|c| - 1]
      case Some(v) => if v > prev.score && v > floor then Best(Some(|c| - 1), v) else prev
      case None => prev
  }

  /** Candidate j can win: it is present and clears both the floor and the start value 0. */
  predicate Qualifies(c: seq<Option<real>>, j: int, floor: real)
  {
    0 <= j < |c| && c[j].Some? && c[j].value > floor && c[j].value > 0.0
  }

  /**
   * The scan picks the first maximum among the qualifying candidates, and
   * picks nothing exactly when no candidate qualifies.
   */
  lemma {:induction false} ScanIsFirstMaximum(c: seq<Option<real>>, floor: real)
    ensures Scan(c, floor).index.None? <==> forall j :: 0 <= j < |c| ==> !Qualifies(c, j, floor)
    ensures Scan(c, floor).index.Some? ==>
      var k := Scan(c, floor).index.value;
      Qualifies(c, k, floor)
      && (forall j :: 0 <= j < |c| && c[j].Some? ==> c[j].value <= c[k].value)
      && (forall j :: 0 <= j < k && c[j].Some? ==> c[j].value < c[k].value)
    decreases |c|
  {
    if c != [] {
      var n := |c| - 1;
      var init := c[..n];
      ScanIsFirstMaximum(init, floor);
      assert forall j :: 0 <= j < n ==> init[j] == c[j];
      assert forall j :: 0 <= j < n ==> (Qualifies(init, j, floor) <==> Qualifies(c, j, floor));
      var prev := Scan(init, floor);
      if c[n].Some? && c[n].value > prev.score && c[n].value > floor {
        assert Scan(c, floor) == Best(Some(n), c[n].value);
        assert Qualifies(c, n, floor);
        forall j | 0 <= j < n && c[j].Some?
          ensures c[j].value < c[n].value
        {
          assert init[j] == c[j];
          if prev.index.Some? {
            assert c[j].value <= init[prev.index.value].value == prev.score;
          } else {
            assert !Qualifies(init, j, floor);
          }
        }
      } else {
        assert Scan(c, floor) == prev;
      }
    }
  }
}
