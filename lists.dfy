/** The array pipelines the converter builds its lists with: `sort` by a string key,
    "first occurrence wins" de-duplication (`new Set(...)`, or
    `filter((v, i, arr) => arr.findIndex(...) === i)`), `filter(x => x !== k)`,
    and the include-or-remove toggle. */
module Lists {
  import opened Types
  import opened StrOrder

  /** The identity key, for lists of plain strings. */
  function Self(s: string): string { s }

  // ---------------------------------------------------------------- keys

  /** Some element of `s` has key `k` (`s.some(x => key(x) === k)`). */
  predicate HasKey<T, K(==)>(s: seq<T>, k: K, key: T -> K) {
    exists i :: 0 <= i < |s| && key(s[i]) == k
  }

  /** No two positions of `s` carry the same key. */
  predicate DistinctKeys<T, K(==)>(s: seq<T>, key: T -> K) {
    forall i, j :: 0 <= i < j < |s| ==> key(s[i]) != key(s[j])
  }

  /** The first element with key `k`, as `findIndex` by key locates it. */
  function FirstByKey<T, K(==)>(s: seq<T>, k: K, key: T -> K): (r: Option<T>)
    ensures r.Some? <==> HasKey(s, k, key)
    ensures r.Some? ==> key(r.value) == k && r.value in s
  {
    if s == [] then None
    else if key(s[0]) == k then Some(s[0])
    else
      var r := FirstByKey(s[1..], k, key);
      assert HasKey(s[1..], k, key) ==> HasKey(s, k, key) by {
        if HasKey(s[1..], k, key) {
          var i :| 0 <= i < |s[1..]| && key(s[1..][i]) == k;
          assert key(s[i + 1]) == k;
        }
      }
      r
  }

  /** Searching a concatenation searches the left part first. */
  lemma {:induction false} FirstByKeyConcat<T, K>(a: seq<T>, b: seq<T>, k: K, key: T -> K)
    ensures FirstByKey(a + b, k, key) == if HasKey(a, k, key) then FirstByKey(a, k, key) else FirstByKey(b, k, key)
  {
    if a != [] {
      assert (a + b)[1..] == a[1..] + b;
      FirstByKeyConcat(a[1..], b, k, key);
      if key(a[0]) != k {
        assert HasKey(a, k, key) == HasKey(a[1..], k, key) by {
          if HasKey(a, k, key) {
            var i :| 0 <= i < |a| && key(a[i]) == k;
            assert key(a[1..][i - 1]) == k;
          }
        }
      }
    } else {
      assert a + b == b;
    }
  }

  // ---------------------------------------------------------------- filter

  /** `s.filter(x => key(x) !== k)`. */
  function RemoveKey<T, K(==)>(s: seq<T>, k: K, key: T -> K): (r: seq<T>)
    ensures |r| <= |s|
    ensures forall i :: 0 <= i < |r| ==> r[i] in s && key(r[i]) != k
    ensures forall i :: 0 <= i < |s| && key(s[i]) != k ==> s[i] in r
  {
    if s == [] then []
    else
      var init := s[..|s| - 1];
      var last := s[|s| - 1];
      assert s == init + [last];
      RemoveKey(init, k, key) + (if key(last) == k then [] else [last])
  }

  /** Filtering out a key that does not occur changes nothing. */
  lemma {:induction false} RemoveAbsentKey<T, K>(s: seq<T>, k: K, key: T -> K)
    requires !HasKey(s, k, key)
    ensures RemoveKey(s, k, key) == s
  {
    if s != [] {
      var init := s[..|s| - 1];
      assert !HasKey(init, k, key);
      RemoveAbsentKey(init, k, key);
      assert key(s[|s| - 1]) != k;
      assert s == init + [s[|s| - 1]];
    }
  }

  /** Filtering distributes over appending one element. */
  lemma RemoveKeySnoc<T, K>(s: seq<T>, y: T, k: K, key: T -> K)
    ensures RemoveKey(s + [y], k, key) == RemoveKey(s, k, key) + (if key(y) == k then [] else [y])
  {
    assert (s + [y])[..|s + [y]| - 1] == s;
  }

  /** The keys left after filtering are the old ones except `k`. */
  lemma {:induction false} HasKeyAfterRemove<T, K>(s: seq<T>, k: K, j: K, key: T -> K)
    ensures HasKey(RemoveKey(s, k, key), j, key) <==> HasKey(s, j, key) && j != k
  {
    var r := RemoveKey(s, k, key);
    if HasKey(r, j, key) {
      var i :| 0 <= i < |r| && key(r[i]) == j;
      assert r[i] in s;
      var m :| 0 <= m < |s| && s[m] == r[i];
      assert key(s[m]) == j;
    }
    if HasKey(s, j, key) && j != k {
      var m :| 0 <= m < |s| && key(s[m]) == j;
      assert s[m] in r;
      var i :| 0 <= i < |r| && r[i] == s[m];
      assert key(r[i]) == j;
    }
  }

  /** Filtering keeps keys distinct. */
  lemma {:induction false} RemoveKeyDistinct<T, K>(s: seq<T>, k: K, key: T -> K)
    requires DistinctKeys(s, key)
    ensures DistinctKeys(RemoveKey(s, k, key), key)
  {
    if s != [] {
      var init := s[..|s| - 1];
      var last := s[|s| - 1];
      assert DistinctKeys(init, key);
      RemoveKeyDistinct(init, k, key);
      var ri := RemoveKey(init, k, key);
      if key(last) != k {
        assert !HasKey(init, key(last), key);
        HasKeyAfterRemove(init, k, key(last), key);
        assert RemoveKey(s, k, key) == ri + [last];
      }
    }
  }

  // ---------------------------------------------------------------- de-duplication

  /** Keeps, in order, every element whose key does not occur at an earlier index:
      `s.filter((v, i, arr) => arr.findIndex(x => key(x) === key(v)) === i)`,
      which is also what `Array.from(new Set(s))` gives for the identity key. */
  function DedupBy<T, K(==)>(s: seq<T>, key: T -> K): (r: seq<T>)
    ensures |r| <= |s|
  {
    if s == [] then []
    else
      var init := s[..|s| - 1];
      var last := s[|s| - 1];
      assert s == init + [last];
      if HasKey(init, key(last), key) then DedupBy(init, key) else DedupBy(init, key) + [last]
  }

  /** De-duplication only keeps elements of its input. */
  lemma {:induction false} DedupKeepsElements<T, K>(s: seq<T>, key: T -> K)
    ensures forall i :: 0 <= i < |DedupBy(s, key)| ==> DedupBy(s, key)[i] in s
  {
    if s != [] {
      var init := s[..|s| - 1];
      assert s == init + [s[|s| - 1]];
      DedupKeepsElements(init, key);
    }
  }

  /** The de-duplicated list has no repeated key. */
  lemma {:induction false} DedupDistinct<T, K>(s: seq<T>, key: T -> K)
    ensures DistinctKeys(DedupBy(s, key), key)
  {
    if s != [] {
      var init := s[..|s| - 1];
      var last := s[|s| - 1];
      DedupDistinct(init, key);
      var d := DedupBy(init, key);
      if !HasKey(init, key(last), key) {
        DedupKeepsElements(init, key);
        forall i | 0 <= i < |d| ensures key(d[i]) != key(last) {
          assert d[i] in init;
          var m :| 0 <= m < |init| && init[m] == d[i];
        }
      }
    }
  }

  /** Every key of the input survives de-duplication, and nothing else appears. */
  lemma {:induction false} DedupKeepsKeys<T, K>(s: seq<T>, k: K, key: T -> K)
    ensures HasKey(DedupBy(s, key), k, key) <==> HasKey(s, k, key)
  {
    var d := DedupBy(s, key);
    DedupKeepsElements(s, key);
    if HasKey(d, k, key) {
      var i :| 0 <= i < |d| && key(d[i]) == k;
      assert d[i] in s;
      var m :| 0 <= m < |s| && s[m] == d[i];
    }
    if s != [] && HasKey(s, k, key) {
      var init := s[..|s| - 1];
      var last := s[|s| - 1];
      DedupKeepsKeys(init, k, key);
      DedupKeepsKeys(init, key(last), key);
      var di := DedupBy(init, key);
      var m :| 0 <= m < |s| && key(s[m]) == k;
      if m < |s| - 1 {
        assert key(init[m]) == k;
        var i :| 0 <= i < |di| && key(di[i]) == k;
        assert d[i] == di[i];
      } else if HasKey(init, key(last), key) {
        var i :| 0 <= i < |di| && key(di[i]) == key(last);
        assert d[i] == di[i];
      } else {
        assert d[|d| - 1] == last;
      }
    }
  }

  /** The element kept for a key is the first one the input has for it. */
  lemma {:induction false} DedupKeepsFirst<T, K>(s: seq<T>, key: T -> K)
    ensures forall i :: 0 <= i < |DedupBy(s, key)| ==>
      FirstByKey(s, key(DedupBy(s, key)[i]), key) == Some(DedupBy(s, key)[i])
  {
    if s != [] {
      var init := s[..|s| - 1];
      var last := s[|s| - 1];
      assert s == init + [last];
      DedupKeepsFirst(init, key);
      var d := DedupBy(s, key);
      forall i | 0 <= i < |d| ensures FirstByKey(s, key(d[i]), key) == Some(d[i]) {
        var x := d[i];
        FirstByKeyConcat(init, [last], key(x), key);
        var di := DedupBy(init, key);
        if i < |di| {
          assert x == di[i];
          assert FirstByKey(init, key(x), key) == Some(x);
        } else {
          assert x == last && !HasKey(init, key(last), key);
        }
      }
    }
  }

  /** An input without repeated keys is left as it is. */
  lemma {:induction false} DedupOfDistinct<T, K>(s: seq<T>, key: T -> K)
    requires DistinctKeys(s, key)
    ensures DedupBy(s, key) == s
  {
    if s != [] {
      var init := s[..|s| - 1];
      var last := s[|s| - 1];
      assert DistinctKeys(init, key);
      DedupOfDistinct(init, key);
      assert !HasKey(init, key(last), key);
      assert s == init + [last];
    }
  }

  lemma HasKeyCons<T, K>(p: T, s: seq<T>, k: K, key: T -> K)
    ensures HasKey([p] + s, k, key) <==> key(p) == k || HasKey(s, k, key)
  {
    if HasKey(s, k, key) {
      var i :| 0 <= i < |s| && key(s[i]) == k;
      assert ([p] + s)[i + 1] == s[i];
    }
    assert ([p] + s)[0] == p;
  }

  /** Appending one element keeps it exactly when its key is new. */
  lemma DedupSnoc<T, K>(s: seq<T>, y: T, key: T -> K)
    ensures DedupBy(s + [y], key) == if HasKey(s, key(y), key) then DedupBy(s, key) else DedupBy(s, key) + [y]
  {
    assert (s + [y])[..|s + [y]| - 1] == s;
  }

  /** One step of `DedupCons`, when the appended element has `p`'s key: it is dropped on both sides. */
  lemma DedupConsStepSame<T, K>(p: T, init: seq<T>, y: T, key: T -> K)
    requires key(y) == key(p)
    requires DedupBy([p] + init, key) == [p] + DedupBy(RemoveKey(init, key(p), key), key)
    ensures DedupBy([p] + (init + [y]), key) == [p] + DedupBy(RemoveKey(init + [y], key(p), key), key)
  {
    var ps := [p] + init;
    var rem := RemoveKey(init, key(p), key);
    assert [p] + (init + [y]) == ps + [y];
    assert ps[0] == p;
    assert HasKey(ps, key(y), key);
    DedupSnoc(ps, y, key);
    RemoveKeySnoc(init, y, key(p), key);
    assert rem + [] == rem;
    assert RemoveKey(init + [y], key(p), key) == rem;
    calc {
      DedupBy([p] + (init + [y]), key);
      DedupBy(ps + [y], key);
      DedupBy(ps, key);
      [p] + DedupBy(rem, key);
      [p] + DedupBy(RemoveKey(init + [y], key(p), key), key);
    }
  }

  /** One step of `DedupCons`, when the appended element has another key: it is kept
      on both sides exactly when its key is new to `init`. */
  lemma DedupConsStepOther<T, K>(p: T, init: seq<T>, y: T, key: T -> K)
    requires key(y) != key(p)
    requires DedupBy([p] + init, key) == [p] + DedupBy(RemoveKey(init, key(p), key), key)
    ensures DedupBy([p] + (init + [y]), key) == [p] + DedupBy(RemoveKey(init + [y], key(p), key), key)
  {
    var ps := [p] + init;
    var rem := RemoveKey(init, key(p), key);
    assert [p] + (init + [y]) == ps + [y];
    RemoveKeySnoc(init, y, key(p), key);
    assert RemoveKey(init + [y], key(p), key) == rem + [y];
    HasKeyCons(p, init, key(y), key);
    HasKeyAfterRemove(init, key(p), key(y), key);
    DedupAppendBoth(p, ps, rem, y, key);
  }

  /** Appending the same element to two lists whose de-duplications differ by a head `p`,
      and which agree on whether they hold its key, keeps them differing by `p`. */
  lemma DedupAppendBoth<T, K>(p: T, ps: seq<T>, rem: seq<T>, y: T, key: T -> K)
    requires DedupBy(ps, key) == [p] + DedupBy(rem, key)
    requires HasKey(ps, key(y), key) == HasKey(rem, key(y), key)
    ensures DedupBy(ps + [y], key) == [p] + DedupBy(rem + [y], key)
  {
    DedupSnoc(ps, y, key);
    DedupSnoc(rem, y, key);
    if !HasKey(rem, key(y), key) {
      assert ([p] + DedupBy(rem, key)) + [y] == [p] + (DedupBy(rem, key) + [y]);
    }
  }

  /** De-duplicating `[p, ...s]` keeps `p` first and de-duplicates the rest without `p`'s key. */
  lemma {:induction false} DedupCons<T, K>(p: T, s: seq<T>, key: T -> K)
    ensures DedupBy([p] + s, key) == [p] + DedupBy(RemoveKey(s, key(p), key), key)
  {
    if s == [] {
      assert [p] + s == [] + [p];
      DedupSnoc([], p, key);
    } else {
      var init := s[..|s| - 1];
      var y := s[|s| - 1];
      assert s == init + [y];
      DedupCons(p, init, key);
      if key(y) == key(p) {
        DedupConsStepSame(p, init, y, key);
      } else {
        DedupConsStepOther(p, init, y, key);
      }
    }
  }

  // ---------------------------------------------------------------- sort

  /** `s` is in ascending `localeCompare` order of its keys. */
  predicate SortedBy<T>(s: seq<T>, key: T -> string) {
    forall i, j :: 0 <= i < j < |s| ==> StrLe(key(s[i]), key(s[j]))
  }

  /** Inserts `x` before the first element whose key is not below it. */
  function InsertBy<T>(x: T, s: seq<T>, key: T -> string): (r: seq<T>)
    ensures multiset(r) == multiset(s) + multiset{x}
    ensures |r| == |s| + 1
  {
    if s == [] || StrLe(key(x), key(s[0])) then [x] + s
    else
      assert s == [s[0]] + s[1..];
      [s[0]] + InsertBy(x, s[1..], key)
  }

  lemma {:induction false} InsertSorted<T>(x: T, s: seq<T>, key: T -> string)
    requires SortedBy(s, key)
    ensures SortedBy(InsertBy(x, s, key), key)
  {
    if s == [] {
    } else if StrLe(key(x), key(s[0])) {
      forall j | 0 < j < |s| ensures StrLe(key(x), key(s[j])) {
        StrLeTransitive(key(x), key(s[0]), key(s[j]));
      }
    } else {
      StrLeTotal(key(x), key(s[0]));
      var rest := InsertBy(x, s[1..], key);
      InsertSorted(x, s[1..], key);
      forall j | 0 <= j < |rest| ensures StrLe(key(s[0]), key(rest[j])) {
        assert rest[j] in multiset(rest);
        if rest[j] != x {
          assert rest[j] in multiset(s[1..]);
          var m :| 0 <= m < |s[1..]| && s[1..][m] == rest[j];
          assert s[m + 1] == rest[j];
        }
      }
    }
  }

  /** `s.sort((a, b) => key(a).localeCompare(key(b)))`, as a stable insertion sort. */
  function SortBy<T>(s: seq<T>, key: T -> string): (r: seq<T>)
    ensures multiset(r) == multiset(s)
    ensures |r| == |s|
    ensures SortedBy(r, key)
  {
    if s == [] then []
    else
      assert s == [s[0]] + s[1..];
      var rest := SortBy(s[1..], key);
      InsertSorted(s[0], rest, key);
      InsertBy(s[0], rest, key)
  }

  /** Sorting keeps keys distinct. */
  lemma {:induction false} SortKeepsDistinct<T>(s: seq<T>, key: T -> string)
    requires DistinctKeys(s, key)
    ensures DistinctKeys(SortBy(s, key), key)
  {
    if s != [] {
      assert s == [s[0]] + s[1..];
      assert DistinctKeys(s[1..], key);
      SortKeepsDistinct(s[1..], key);
      var rest := SortBy(s[1..], key);
      forall i | 0 <= i < |rest| ensures key(rest[i]) != key(s[0]) {
        assert rest[i] in multiset(s[1..]);
        var m :| 0 <= m < |s[1..]| && s[1..][m] == rest[i];
        assert s[m + 1] == rest[i];
      }
      InsertKeepsDistinct(s[0], rest, key);
    }
  }

  lemma {:induction false} InsertKeepsDistinct<T>(x: T, s: seq<T>, key: T -> string)
    requires DistinctKeys(s, key)
    requires forall i :: 0 <= i < |s| ==> key(s[i]) != key(x)
    ensures DistinctKeys(InsertBy(x, s, key), key)
  {
    if s != [] && !StrLe(key(x), key(s[0])) {
      assert s == [s[0]] + s[1..];
      assert DistinctKeys(s[1..], key);
      InsertKeepsDistinct(x, s[1..], key);
      var rest := InsertBy(x, s[1..], key);
      forall j | 0 <= j < |rest| ensures key(s[0]) != key(rest[j]) {
        assert rest[j] in multiset(rest);
        if rest[j] != x {
          assert rest[j] in multiset(s[1..]);
          var m :| 0 <= m < |s[1..]| && s[1..][m] == rest[j];
          assert s[m + 1] == rest[j];
        }
      }
    } else if s != [] {
      forall j | 0 <= j < |s| ensures key(x) != key(s[j]) {
        assert s[j] in multiset(s);
      }
    }
  }

  /** Reordering a list keeps its keys. */
  lemma HasKeyPermutation<T, K>(a: seq<T>, b: seq<T>, k: K, key: T -> K)
    requires multiset(a) == multiset(b)
    ensures HasKey(a, k, key) <==> HasKey(b, k, key)
  {
    if HasKey(a, k, key) {
      var i :| 0 <= i < |a| && key(a[i]) == k;
      assert a[i] in multiset(b);
      var j :| 0 <= j < |b| && b[j] == a[i];
    }
    if HasKey(b, k, key) {
      var j :| 0 <= j < |b| && key(b[j]) == k;
      assert b[j] in multiset(a);
      var i :| 0 <= i < |a| && a[i] == b[j];
    }
  }

  /** The key of each element, in order (`rows.map(r => r.code)`). */
  function Keys<T>(s: seq<T>, key: T -> string): (r: seq<string>)
    ensures |r| == |s|
    ensures forall i :: 0 <= i < |r| ==> r[i] == key(s[i])
  {
    seq(|s|, i requires 0 <= i < |s| => key(s[i]))
  }

  lemma KeysSnoc<T>(s: seq<T>, x: T, key: T -> string)
    ensures Keys(s + [x], key) == Keys(s, key) + [key(x)]
  {
  }

  // ---------------------------------------------------------------- order

  /** `a` is `b` with some elements left out, the rest in their original order. */
  ghost predicate IsSubsequence<T>(a: seq<T>, b: seq<T>) {
    if a == [] then true
    else if b == [] then false
    else (a[|a| - 1] == b[|b| - 1] && IsSubsequence(a[..|a| - 1], b[..|b| - 1]))
         || IsSubsequence(a, b[..|b| - 1])
  }

  lemma SubsequenceOfSnoc<T>(a: seq<T>, b: seq<T>, y: T)
    requires IsSubsequence(a, b)
    ensures IsSubsequence(a, b + [y]) && IsSubsequence(a + [y], b + [y])
  {
    assert (b + [y])[..|b + [y]| - 1] == b;
    assert (a + [y])[..|a + [y]| - 1] == a;
  }

  lemma {:induction false} SubsequencePrefix<T>(a: seq<T>, b: seq<T>, n: nat)
    requires IsSubsequence(a, b) && n <= |a|
    ensures IsSubsequence(a[..n], b)
  {
    if n < |a| && n > 0 {
      var b' := b[..|b| - 1];
      assert b == b' + [b[|b| - 1]];
      if a[|a| - 1] == b[|b| - 1] && IsSubsequence(a[..|a| - 1], b') {
        SubsequencePrefix(a[..|a| - 1], b', n);
        assert a[..|a| - 1][..n] == a[..n];
      } else {
        SubsequencePrefix(a, b', n);
      }
      SubsequenceOfSnoc(a[..n], b', b[|b| - 1]);
    } else if n == |a| {
      assert a[..n] == a;
    }
  }

  lemma {:induction false} SubsequenceTransitive<T>(a: seq<T>, b: seq<T>, c: seq<T>)
    requires IsSubsequence(a, b) && IsSubsequence(b, c)
    ensures IsSubsequence(a, c)
    decreases |c|
  {
    if a != [] {
      var a', b', c' := a[..|a| - 1], b[..|b| - 1], c[..|c| - 1];
      assert c == c' + [c[|c| - 1]];
      if b[|b| - 1] == c[|c| - 1] && IsSubsequence(b', c') {
        if a[|a| - 1] == b[|b| - 1] && IsSubsequence(a', b') {
          SubsequenceTransitive(a', b', c');
          SubsequenceOfSnoc(a', c', c[|c| - 1]);
          assert a == a' + [a[|a| - 1]];
        } else {
          SubsequenceTransitive(a, b', c');
          SubsequenceOfSnoc(a, c', c[|c| - 1]);
        }
      } else {
        SubsequenceTransitive(a, b, c');
        SubsequenceOfSnoc(a, c', c[|c| - 1]);
      }
    }
  }

  /** Filtering keeps the order of what it keeps. */
  lemma {:induction false} RemoveKeyIsSubsequence<T, K>(s: seq<T>, k: K, key: T -> K)
    ensures IsSubsequence(RemoveKey(s, k, key), s)
  {
    if s != [] {
      var init := s[..|s| - 1];
      var last := s[|s| - 1];
      assert s == init + [last];
      RemoveKeyIsSubsequence(init, k, key);
      SubsequenceOfSnoc(RemoveKey(init, k, key), init, last);
      if key(last) == k {
        assert RemoveKey(s, k, key) == RemoveKey(init, k, key);
      } else {
        assert RemoveKey(s, k, key) == RemoveKey(init, k, key) + [last];
      }
    }
  }

  /** De-duplication keeps the order of what it keeps. */
  lemma {:induction false} DedupIsSubsequence<T, K>(s: seq<T>, key: T -> K)
    ensures IsSubsequence(DedupBy(s, key), s)
  {
    if s != [] {
      var init := s[..|s| - 1];
      var last := s[|s| - 1];
      assert s == init + [last];
      DedupIsSubsequence(init, key);
      SubsequenceOfSnoc(DedupBy(init, key), init, last);
    }
  }

  // ---------------------------------------------------------------- toggle

  /** `prev.includes(code) ? prev.filter(x => x !== code) : [...prev, code]`. */
  function Toggle(prev: seq<string>, code: string): (r: seq<string>)
    ensures code in r <==> code !in prev
    ensures code !in prev ==> r == prev + [code]
    ensures forall i :: 0 <= i < |prev| && prev[i] != code ==> prev[i] in r
    ensures forall i :: 0 <= i < |r| && r[i] != code ==> r[i] in prev
  {
    if code in prev then RemoveKey(prev, code, Self) else prev + [code]
  }

  /** Toggling never reorders the other codes: without `code`, the list is the same before and after. */
  lemma ToggleKeepsOthers(prev: seq<string>, code: string)
    ensures RemoveKey(Toggle(prev, code), code, Self) == RemoveKey(prev, code, Self)
  {
    if code in prev {
      var r := RemoveKey(prev, code, Self);
      assert !HasKey(r, code, Self);
      RemoveAbsentKey(r, code, Self);
    } else {
      RemoveKeySnoc(prev, code, code, Self);
    }
  }

  /** Toggling an absent code twice gives back the original list. */
  lemma ToggleTwiceAbsent(prev: seq<string>, code: string)
    requires code !in prev
    ensures Toggle(Toggle(prev, code), code) == prev
  {
    var added := prev + [code];
    assert code in added;
    RemoveKeySnoc(prev, code, code, Self);
    assert !HasKey(prev, code, Self);
    RemoveAbsentKey(prev, code, Self);
  }
}
