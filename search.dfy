/** The two lookup helpers of the NMHC module: `search_for_attr_value`
    (first element whose attribute equals a value) and `find_closest_date`
    (the element of a list of dates nearest to a date). */
module Search {
  import opened Wrappers

  /** `search_for_attr_value` with the attribute already projected: the index
      of the first element equal to `v`, or None when there is none. */
  function FirstIndexOf<V(==)>(xs: seq<V>, v: V): (r: Option<nat>)
    ensures r.None? <==> forall j :: 0 <= j < |xs| ==> xs[j] != v
    ensures r.Some? ==> r.value < |xs| && xs[r.value] == v && forall j :: 0 <= j < r.value ==> xs[j] != v
  {
    if |xs| == 0 then None
    else if xs[0] == v then Some(0)
    else match FirstIndexOf(xs[1..], v)
      case None => None
      case Some(k) => Some(k + 1)
  }

  /** The absolute value, `abs` of a time difference. */
  function Abs(x: int): nat
  {
    if x < 0 then -x else x
  }

  /** The index of the first date of `dates` at minimal distance from `date`:
      `min(dates, key=lambda x: abs(x - date))` keeps the first of equal keys. */
  function ClosestIndex(date: int, dates: seq<int>): (k: nat)
    requires |dates| > 0
    ensures k < |dates|
    ensures forall j :: 0 <= j < |dates| ==> Abs(dates[k] - date) <= Abs(dates[j] - date)
    ensures forall j :: 0 <= j < k ==> Abs(dates[k] - date) < Abs(dates[j] - date)
  {
    if |dates| == 1 then 0
    else
      var k := ClosestIndex(date, dates[1..]) + 1;
      if Abs(dates[0] - date) <= Abs(dates[k] - date) then 0 else k
  }

  /** `find_closest_date(date, dates)`: the nearest date and its signed
      difference `match - date`; of equally near dates `min` keeps the first
      in list order, and it raises on an empty list. */
  function FindClosestDate(date: int, dates: seq<int>): (r: Result<(int, int)>)
    ensures r.Failure? <==> |dates| == 0
    ensures r.Success? ==>
      var (m, delta) := r.value;
      && (exists k :: 0 <= k < |dates| && dates[k] == m
                       && forall j :: 0 <= j < k ==> Abs(delta) < Abs(dates[j] - date))
      && delta == m - date
      && (forall j :: 0 <= j < |dates| ==> Abs(delta) <= Abs(dates[j] - date))
  {
    if |dates| == 0 then Failure(EmptySequence)
    else
      var k := ClosestIndex(date, dates);
      Success((dates[k], dates[k] - date))
  }

  /** The first element equal to the closest date is the one `min` picked:
      any earlier equal date would have been at the same distance. */
  lemma FirstIndexOfClosest(date: int, dates: seq<int>)
    requires |dates| > 0
    ensures FirstIndexOf(dates, dates[ClosestIndex(date, dates)]) == Some(ClosestIndex(date, dates))
  {
  }
}
