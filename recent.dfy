/** The most-recently-used list of currency pairs both rate hooks keep: on every
    change of the pair, `Array.from(new Set([pair, ...prev])).slice(0, bound)`,
    skipped when a code is empty or the two codes are equal. */
module RecentPairs {
  import opened Types
  import opened Lists

  /** `slice(0, n)`. */
  function Take(s: seq<string>, n: nat): (r: seq<string>)
    ensures |r| == if |s| <= n then |s| else n
    ensures r == s[..|r|]
    ensures |s| <= n ==> r == s
  {
    if |s| <= n then s else s[..n]
  }

  /** The update is skipped for an empty code or a self-pair. */
  predicate Skipped(from: string, to: string) {
    from == "" || to == "" || from == to
  }

  /** The recent-pairs list after the pair changes to `from`/`to`. */
  function NextRecent(prev: seq<string>, from: string, to: string, bound: nat): (r: seq<string>)
    ensures Skipped(from, to) ==> r == prev
    ensures !Skipped(from, to) ==> |r| <= bound
  {
    if Skipped(from, to) then prev
    else Take(DedupBy([PairKey(from, to)] + prev, Self), bound)
  }

  lemma NextRecentSkipped(prev: seq<string>, from: string, to: string, bound: nat)
    requires Skipped(from, to)
    ensures NextRecent(prev, from, to, bound) == prev
  {
  }

  /** The list after an update: the new pair, then the older entries de-duplicated
      and without the new pair, cut to the bound. */
  lemma NextRecentSplits(prev: seq<string>, from: string, to: string, bound: nat)
    requires !Skipped(from, to) && bound > 0
    ensures NextRecent(prev, from, to, bound) ==
      [PairKey(from, to)] + Take(DedupBy(RemoveKey(prev, PairKey(from, to), Self), Self), bound - 1)
  {
    DedupCons(PairKey(from, to), prev, Self);
  }

  /** After an update the new pair comes first and only once, no entry repeats and
      the list fits the bound. */
  lemma NextRecentHead(prev: seq<string>, from: string, to: string, bound: nat)
    requires !Skipped(from, to) && bound > 0
    ensures |NextRecent(prev, from, to, bound)| >= 1
    ensures NextRecent(prev, from, to, bound)[0] == PairKey(from, to)
    ensures forall i :: 1 <= i < |NextRecent(prev, from, to, bound)| ==> NextRecent(prev, from, to, bound)[i] != PairKey(from, to)
    ensures DistinctKeys(NextRecent(prev, from, to, bound), Self)
    ensures |NextRecent(prev, from, to, bound)| <= bound
  {
    var all := DedupBy([PairKey(from, to)] + prev, Self);
    NextRecentSplits(prev, from, to, bound);
    DedupDistinct([PairKey(from, to)] + prev, Self);
    var r := NextRecent(prev, from, to, bound);
    assert r == all[..|r|];
    forall i | 1 <= i < |r| ensures r[i] != PairKey(from, to) {
      assert Self(all[0]) != Self(all[i]);
    }
  }

  /** The older entries that survive keep their relative order. */
  lemma NextRecentKeepsOrder(prev: seq<string>, from: string, to: string, bound: nat)
    requires !Skipped(from, to) && bound > 0
    ensures |NextRecent(prev, from, to, bound)| >= 1
    ensures IsSubsequence(NextRecent(prev, from, to, bound)[1..], prev)
  {
    var pair := PairKey(from, to);
    var removed := RemoveKey(prev, pair, Self);
    var rest := DedupBy(removed, Self);
    NextRecentSplits(prev, from, to, bound);
    var r := NextRecent(prev, from, to, bound);
    assert r[1..] == Take(rest, bound - 1);
    DedupIsSubsequence(removed, Self);
    RemoveKeyIsSubsequence(prev, pair, Self);
    SubsequenceTransitive(rest, removed, prev);
    SubsequencePrefix(rest, prev, |r| - 1);
  }

  /** When the old list has no repeats -- as every list this update produces -- the
      rest is exactly the old list without the new pair, cut to the bound. */
  lemma NextRecentOfDistinct(prev: seq<string>, from: string, to: string, bound: nat)
    requires !Skipped(from, to) && bound > 0
    requires DistinctKeys(prev, Self)
    ensures NextRecent(prev, from, to, bound) ==
      Take([PairKey(from, to)] + RemoveKey(prev, PairKey(from, to), Self), bound)
  {
    var pair := PairKey(from, to);
    RemoveKeyDistinct(prev, pair, Self);
    DedupOfDistinct(RemoveKey(prev, pair, Self), Self);
    NextRecentSplits(prev, from, to, bound);
  }

  /** The list never holds a repeated entry nor more entries than the bound, and the
      only pair it ever gains is one of two distinct, non-empty codes. */
  lemma NextRecentInvariant(prev: seq<string>, from: string, to: string, bound: nat)
    requires DistinctKeys(prev, Self) && |prev| <= bound
    ensures var r := NextRecent(prev, from, to, bound);
      && DistinctKeys(r, Self) && |r| <= bound
      && (forall i :: 0 <= i < |r| ==> r[i] in prev || (r[i] == PairKey(from, to) && !Skipped(from, to)))
  {
    if !Skipped(from, to) {
      var all := DedupBy([PairKey(from, to)] + prev, Self);
      DedupDistinct([PairKey(from, to)] + prev, Self);
      DedupKeepsElements([PairKey(from, to)] + prev, Self);
      var r := NextRecent(prev, from, to, bound);
      forall i | 0 <= i < |r| ensures r[i] in prev || r[i] == PairKey(from, to) {
        assert r[i] == all[i];
        assert all[i] in [PairKey(from, to)] + prev;
      }
    }
  }
}
