/** Newest-first ordering as the home page asks `Array.prototype.sort` for
    it: a comparator `(a, b) => key(b) - key(a)` and a stable sort, so that
    items with the same key keep their relative order. */
module Ordering {

  /** Every item's key is at least the key of every item after it. */
  predicate NewestFirst<T>(s: seq<T>, key: T -> int) {
    forall i, j :: 0 <= i < j < |s| ==> key(s[i]) >= key(s[j])
  }

  /** The items whose key is `k`, in their order. */
  function WithKey<T>(s: seq<T>, key: T -> int, k: int): (r: seq<T>)
    ensures |r| <= |s|
  {
    if s == [] then []
    else (if key(s[0]) == k then [s[0]] else []) + WithKey(s[1..], key, k)
  }

  /** Puts `x` in front of the first item whose key is not greater than its own. */
  function Insert<T>(x: T, s: seq<T>, key: T -> int): (r: seq<T>)
    ensures |r| == |s| + 1
  {
    if s == [] || key(s[0]) <= key(x) then [x] + s
    else [s[0]] + Insert(x, s[1..], key)
  }

  /** Where Insert puts the item: after every item with a greater key and
      before the first one without, everything else keeping its order. */
  function InsertPosition<T>(x: T, s: seq<T>, key: T -> int): (p: nat)
    ensures p <= |s| && Insert(x, s, key) == s[..p] + [x] + s[p..]
    ensures forall i :: 0 <= i < p ==> key(s[i]) > key(x)
    ensures p < |s| ==> key(s[p]) <= key(x)
  {
    if s == [] || key(s[0]) <= key(x) then 0
    else
      var p := InsertPosition(x, s[1..], key);
      InsertPositionStep(x, s, key, p);
      p + 1
  }

  lemma InsertPositionStep<T>(x: T, s: seq<T>, key: T -> int, p: nat)
    requires s != [] && key(s[0]) > key(x) && p <= |s| - 1
    requires Insert(x, s[1..], key) == s[1..][..p] + [x] + s[1..][p..]
    ensures Insert(x, s, key) == s[..p + 1] + [x] + s[p + 1..]
  {
    assert Insert(x, s, key) == [s[0]] + Insert(x, s[1..], key);
    ConsSplice(s[0], s[1..], x, p);
    assert [s[0]] + s[1..] == s;
  }

  /** Splicing behind a new head is splicing one place further along. */
  lemma ConsSplice<T>(a: T, t: seq<T>, x: T, p: nat)
    requires p <= |t|
    ensures [a] + (t[..p] + [x] + t[p..]) == ([a] + t)[..p + 1] + [x] + ([a] + t)[p + 1..]
  {
    assert ([a] + t)[..p + 1] == [a] + t[..p];
    assert ([a] + t)[p + 1..] == t[p..];
  }

  /** The items of `s[..p] + [x] + s[p..]`, place by place. */
  lemma SpliceAt<T>(s: seq<T>, p: nat, x: T, r: seq<T>)
    requires p <= |s| && r == s[..p] + [x] + s[p..]
    ensures |r| == |s| + 1 && r[p] == x
    ensures forall i :: 0 <= i < p ==> r[i] == s[i]
    ensures forall i :: p < i < |r| ==> r[i] == s[i - 1]
  {
  }

  /** Insert adds the item and loses nothing. */
  lemma InsertPermutes<T>(x: T, s: seq<T>, key: T -> int)
    ensures multiset(Insert(x, s, key)) == multiset(s) + multiset{x}
  {
    var p := InsertPosition(x, s, key);
    assert s == s[..p] + s[p..];
    assert multiset(s) == multiset(s[..p]) + multiset(s[p..]);
  }

  /** Insert keeps a newest-first sequence newest first. */
  lemma InsertKeepsOrder<T>(x: T, s: seq<T>, key: T -> int)
    requires NewestFirst(s, key)
    ensures NewestFirst(Insert(x, s, key), key)
  {
    var p := InsertPosition(x, s, key);
    var r := Insert(x, s, key);
    SpliceAt(s, p, x, r);
    forall i, j | 0 <= i < j < |r| ensures key(r[i]) >= key(r[j]) {
      if j < p {
        assert key(s[i]) >= key(s[j]);
      } else if j == p {
        assert key(s[i]) > key(x);
      } else if i < p {
        assert key(s[i]) >= key(s[j - 1]);
      } else if i == p {
        assert key(x) >= key(s[p]) >= key(s[j - 1]);
      } else {
        assert key(s[i - 1]) >= key(s[j - 1]);
      }
    }
  }

  /** The result of sorting newest first. */
  function SortNewestFirst<T>(s: seq<T>, key: T -> int): (r: seq<T>)
    ensures |r| == |s|
    ensures NewestFirst(r, key)
    ensures multiset(r) == multiset(s)
  {
    if s == [] then []
    else
      var sorted := SortNewestFirst(s[1..], key);
      InsertPermutes(s[0], sorted, key);
      InsertKeepsOrder(s[0], sorted, key);
      assert s == [s[0]] + s[1..];
      Insert(s[0], sorted, key)
  }

  /** Insert puts the item in front of every item with the same key. */
  lemma {:induction false} InsertWithKey<T>(x: T, s: seq<T>, key: T -> int, k: int)
    ensures WithKey(Insert(x, s, key), key, k) == (if key(x) == k then [x] else []) + WithKey(s, key, k)
  {
    var mine := if key(x) == k then [x] else [];
    if s == [] || key(s[0]) <= key(x) {
      WithKeyCons(x, s, key, k);
    } else {
      var head := if key(s[0]) == k then [s[0]] else [];
      var rest := Insert(x, s[1..], key);
      InsertWithKey(x, s[1..], key, k);
      WithKeyCons(s[0], rest, key, k);
      assert WithKey(s, key, k) == head + WithKey(s[1..], key, k);
      // s[0] has a greater key than x, so at most one of them has key k.
      assert head == [] || mine == [];
      assert head + mine == mine + head;
    }
  }

  lemma WithKeyCons<T>(x: T, s: seq<T>, key: T -> int, k: int)
    ensures WithKey([x] + s, key, k) == (if key(x) == k then [x] else []) + WithKey(s, key, k)
  {
    assert ([x] + s)[0] == x;
    assert ([x] + s)[1..] == s;
  }

  /** The sort is stable: for every key, the items with that key are in the
      order they had before. */
  lemma {:induction false} SortIsStable<T>(s: seq<T>, key: T -> int, k: int)
    ensures WithKey(SortNewestFirst(s, key), key, k) == WithKey(s, key, k)
  {
    if s != [] {
      SortIsStable(s[1..], key, k);
      InsertWithKey(s[0], SortNewestFirst(s[1..], key), key, k);
    }
  }

  /** Items that already are newest first are left as they are. */
  lemma {:induction false} SortKeepsSorted<T>(s: seq<T>, key: T -> int)
    requires NewestFirst(s, key)
    ensures SortNewestFirst(s, key) == s
  {
    if s != [] {
      assert NewestFirst(s[1..], key);
      SortKeepsSorted(s[1..], key);
      assert s[1..] == [] || key(s[1]) <= key(s[0]);
    }
  }

  // ---------------------------------------------------------------------
  // The newest few: `sorted.slice(0, n)`

  /** The first `n` items of the newest-first order. */
  function Newest<T>(list: seq<T>, key: T -> int, n: nat): (r: seq<T>)
    ensures |r| == if |list| < n then |list| else n
    ensures r == SortNewestFirst(list, key)[..|r|]
    ensures NewestFirst(r, key)
    ensures multiset(r) <= multiset(list)
    ensures forall c :: c in r ==> c in list
    // nothing left out is newer than the last one kept
    ensures r != [] ==> forall c :: c in list && key(c) > key(r[|r| - 1]) ==> c in r
  {
    var sorted := SortNewestFirst(list, key);
    var count := if |list| < n then |list| else n;
    var r := sorted[..count];
    PrefixDrawnFrom(sorted, list, r);
    PrefixNewestFirst(sorted, key, r);
    PrefixHoldsNewer(sorted, list, key, r);
    r
  }

  /** A prefix of a rearrangement of `list` is drawn from `list`. */
  lemma PrefixDrawnFrom<T>(sorted: seq<T>, list: seq<T>, r: seq<T>)
    requires multiset(sorted) == multiset(list)
    requires |r| <= |sorted| && r == sorted[..|r|]
    ensures multiset(r) <= multiset(list)
    ensures forall c :: c in r ==> c in list
  {
    assert sorted == r + sorted[|r|..];
    assert multiset(sorted) == multiset(r) + multiset(sorted[|r|..]);
    forall c | c in r ensures c in list {
      assert c in multiset(r);
      assert c in multiset(list);
    }
  }

  lemma PrefixNewestFirst<T>(sorted: seq<T>, key: T -> int, r: seq<T>)
    requires NewestFirst(sorted, key)
    requires |r| <= |sorted| && r == sorted[..|r|]
    ensures NewestFirst(r, key)
  {
    forall i, j | 0 <= i < j < |r| ensures key(r[i]) >= key(r[j]) {
      assert r[i] == sorted[i] && r[j] == sorted[j];
    }
  }

  /** Every item of `list` newer than the last of a newest-first prefix is
      in that prefix. */
  lemma PrefixHoldsNewer<T>(sorted: seq<T>, list: seq<T>, key: T -> int, r: seq<T>)
    requires multiset(sorted) == multiset(list) && NewestFirst(sorted, key)
    requires |r| <= |sorted| && r == sorted[..|r|]
    ensures r != [] ==> forall c :: c in list && key(c) > key(r[|r| - 1]) ==> c in r
  {
    if r != [] {
      forall c | c in list && key(c) > key(r[|r| - 1]) ensures c in r {
        assert c in multiset(list);
        assert c in multiset(sorted);
        var j :| 0 <= j < |sorted| && sorted[j] == c;
        assert j < |r|;
        assert r[j] == c;
      }
    }
  }
}
