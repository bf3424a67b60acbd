/** Turning provider JSON into the converter's values: currency entries and the
    points of a trend. */
module Payloads {
  import opened Types
  import opened StrOrder
  import opened Lists

  function CodeOf(c: Currency): string { c.code }

  /** `Object.entries(json).map(([code, name]) => ({ code, name }))`. */
  function FromEntries(entries: seq<(string, string)>): (r: seq<Currency>)
    ensures |r| == |entries|
    ensures forall i :: 0 <= i < |r| ==> r[i].code == entries[i].0 && r[i].name == entries[i].1
  {
    seq(|entries|, i requires 0 <= i < |entries| => Currency(entries[i].0, entries[i].1))
  }

  /** `obj[k]`, undefined when absent. */
  function Get(m: map<string, real>, k: string): Option<real> {
    if k in m then Some(m[k]) else None
  }

  function EntryDate(e: (string, map<string, real>)): string { e.0 }

  function PointDate(p: TrendPoint): string { p.date }

  /** `.map(([date, obj]) => ({ date, value: obj[to] }))`. */
  function ToPoints(entries: seq<(string, map<string, real>)>, to: string): (r: seq<TrendPoint>)
    ensures |r| == |entries|
    ensures forall i :: 0 <= i < |r| ==> r[i] == TrendPoint(entries[i].0, Get(entries[i].1, to))
  {
    seq(|entries|, i requires 0 <= i < |entries| => TrendPoint(entries[i].0, Get(entries[i].1, to)))
  }

  /** `Object.entries(json.rates).sort(([a], [b]) => a.localeCompare(b)).map(...)`. */
  function TrendPoints(entries: seq<(string, map<string, real>)>, to: string): (r: seq<TrendPoint>)
    ensures |r| == |entries|
  {
    ToPoints(SortBy(entries, EntryDate), to)
  }

  /** The trend has one point per entry of the reply and ascends by date. */
  lemma TrendPointsSorted(entries: seq<(string, map<string, real>)>, to: string)
    ensures |TrendPoints(entries, to)| == |entries|
    ensures SortedBy(TrendPoints(entries, to), PointDate)
  {
    var sorted := SortBy(entries, EntryDate);
    var pts := ToPoints(sorted, to);
    forall i, j | 0 <= i < j < |pts| ensures StrLe(PointDate(pts[i]), PointDate(pts[j])) {
      assert PointDate(pts[i]) == EntryDate(sorted[i]) && PointDate(pts[j]) == EntryDate(sorted[j]);
    }
  }

  /** Every point is some day of the reply, valued at that day's rate for `to`. */
  lemma TrendPointsFromReply(entries: seq<(string, map<string, real>)>, to: string, i: nat)
    requires i < |TrendPoints(entries, to)|
    ensures exists e :: e in entries && TrendPoints(entries, to)[i] == TrendPoint(e.0, Get(e.1, to))
  {
    var sorted := SortBy(entries, EntryDate);
    assert sorted[i] in multiset(entries);
  }

  /** Every day of the reply has its point. */
  lemma TrendPointsCoverReply(entries: seq<(string, map<string, real>)>, to: string, j: nat)
    requires j < |entries|
    ensures exists i ::
      0 <= i < |TrendPoints(entries, to)| && TrendPoints(entries, to)[i] == TrendPoint(entries[j].0, Get(entries[j].1, to))
  {
    var sorted := SortBy(entries, EntryDate);
    assert entries[j] in multiset(sorted);
    var i :| 0 <= i < |sorted| && sorted[i] == entries[j];
    assert TrendPoints(entries, to)[i] == TrendPoint(entries[j].0, Get(entries[j].1, to));
  }

  /** A reply with distinct dates, as a JSON object has, gives one point per date. */
  lemma TrendPointsDistinct(entries: seq<(string, map<string, real>)>, to: string)
    requires DistinctKeys(entries, EntryDate)
    ensures DistinctKeys(TrendPoints(entries, to), PointDate)
  {
    var sorted := SortBy(entries, EntryDate);
    SortKeepsDistinct(entries, EntryDate);
    var pts := ToPoints(sorted, to);
    forall i, j | 0 <= i < j < |pts| ensures PointDate(pts[i]) != PointDate(pts[j]) {
      assert PointDate(pts[i]) == EntryDate(sorted[i]) && PointDate(pts[j]) == EntryDate(sorted[j]);
    }
  }

  /** Every cached trend ascends by date; both rate hooks keep their trend caches so. */
  ghost predicate TrendCacheValid(cache: map<string, seq<TrendPoint>>) {
    forall k :: k in cache ==> SortedBy(cache[k], PointDate)
  }
}
