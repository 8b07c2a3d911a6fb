/** `find_crf`: the calibration record valid at a sample time. */
module Calibration {
  import opened Wrappers
  import opened Records

  /** A record's interval is start-inclusive and end-exclusive. */
  predicate Covers(crf: Crf, t: int) {
    crf.dateStart <= t < crf.dateEnd
  }

  /** The first record, in list order, whose interval contains `t`; None when
      no record does. */
  function FindCrf(crfs: seq<Crf>, t: int): (r: Option<Crf>)
    ensures r.None? <==> forall i :: 0 <= i < |crfs| ==> !Covers(crfs[i], t)
    ensures r.Some? ==> exists i :: 0 <= i < |crfs| && crfs[i] == r.value && Covers(crfs[i], t)
                                   && forall j :: 0 <= j < i ==> !Covers(crfs[j], t)
  {
    if |crfs| == 0 then None
    else if Covers(crfs[0], t) then Some(crfs[0])
    else
      var r := FindCrf(crfs[1..], t);
      if r.Some? then
        var i :| 0 <= i < |crfs[1..]| && crfs[1..][i] == r.value && Covers(crfs[1..][i], t)
                 && forall j :: 0 <= j < i ==> !Covers(crfs[1..][j], t);
        assert crfs[i + 1] == r.value && forall j :: 0 <= j < i + 1 ==> !Covers(crfs[j], t);
        r
      else r
  }

  /** No two records' intervals overlap. */
  predicate NonOverlapping(crfs: seq<Crf>) {
    forall i, j :: 0 <= i < j < |crfs| ==> crfs[i].dateEnd <= crfs[j].dateStart || crfs[j].dateEnd <= crfs[i].dateStart
  }

  /** With non-overlapping intervals the lookup returns THE record that
      contains `t`, whatever its position. */
  lemma {:induction false} FindCrfUnique(crfs: seq<Crf>, t: int, k: nat)
    requires NonOverlapping(crfs)
    requires k < |crfs| && Covers(crfs[k], t)
    ensures FindCrf(crfs, t) == Some(crfs[k])
  {
    if k > 0 && !Covers(crfs[0], t) {
      var rest := crfs[1..];
      assert rest[k - 1] == crfs[k];
      assert NonOverlapping(rest) by {
        forall i, j | 0 <= i < j < |rest|
          ensures rest[i].dateEnd <= rest[j].dateStart || rest[j].dateEnd <= rest[i].dateStart
        {
          assert rest[i] == crfs[i + 1] && rest[j] == crfs[j + 1];
        }
      }
      FindCrfUnique(rest, t, k - 1);
    }
  }

  /** The interval bounds, at their edges: the start instant is covered, the
      end instant is not. */
  lemma FindCrfEdges(c: Crf)
    requires c.dateStart < c.dateEnd
    ensures FindCrf([c], c.dateStart) == Some(c)
    ensures FindCrf([c], c.dateEnd) == None
  {
  }
}
