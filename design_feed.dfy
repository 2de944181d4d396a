/** The "popular designs" feed of the home page (Home.tsx): the validity
    filter, the de-duplication through a `Map` keyed by id, the newest-first
    order, the cut to five and the padding with catalogue products, on the
    normal path and on the path taken when the Firebase read fails. */
module DesignFeed {
  import opened JsValues
  import opened Ordering

  /** A stored design. `createdAt` is the time value the feed's comparator
      obtains from the stored date, None when the field is missing or falsy. */
  datatype Design = Design(id: JsValue, pieceName: JsValue, createdAt: Option<int>)

  /** `new Date(d.createdAt || 0).getTime()`. */
  function CreatedTime(d: Design): int {
    if d.createdAt.Some? then d.createdAt.value else 0
  }

  /** An entry of a design list; None stands for a falsy entry. */
  type Entry = Option<Design>

  /** `design && design.id && design.pieceName`. */
  predicate IsListed(e: Entry) {
    e.Some? && Truthy(e.value.id) && Truthy(e.value.pieceName)
  }

  /** The listed designs of a list, in their order. */
  function ValidDesigns(entries: seq<Entry>): (r: seq<Design>)
    ensures |r| <= |entries|
    ensures forall d :: d in r <==> Some(d) in entries && IsListed(Some(d))
  {
    if entries == [] then []
    else
      var rest := ValidDesigns(entries[1..]);
      assert forall d :: Some(d) in entries <==> Some(d) == entries[0] || Some(d) in entries[1..];
      if IsListed(entries[0]) then [entries[0].value] + rest else rest
  }

  /** `filter` keeps the order and the repeats of its input: the listed
      designs of two lists one after the other are those of the first list
      followed by those of the second. */
  lemma {:induction false} ValidDesignsOfAppend(a: seq<Entry>, b: seq<Entry>)
    ensures ValidDesigns(a + b) == ValidDesigns(a) + ValidDesigns(b)
  {
    if a != [] {
      assert (a + b)[0] == a[0];
      assert (a + b)[1..] == a[1..] + b;
      ValidDesignsOfAppend(a[1..], b);
    } else {
      assert a + b == b;
    }
  }

  /** A single entry is kept, as its design, exactly when it is listed. */
  lemma ValidDesignsOfOne(e: Entry)
    ensures ValidDesigns([e]) == if IsListed(e) then [e.value] else []
  {
    assert [e][1..] == [];
  }

  // ---------------------------------------------------------------------
  // De-duplication through a Map

  /** Whether some design of `s` has id `k`. */
  predicate HasId(s: seq<Design>, k: JsValue) {
    exists i :: 0 <= i < |s| && s[i].id == k
  }

  /** Position of the first design with id `k`; |s| when there is none. */
  function FirstIndex(s: seq<Design>, k: JsValue): (r: nat)
    ensures r <= |s|
    ensures r < |s| <==> HasId(s, k)
    ensures r < |s| ==> s[r].id == k
    ensures forall j :: 0 <= j < r ==> s[j].id != k
  {
    if s == [] then 0
    else if s[0].id == k then 0
    else
      var r := 1 + FirstIndex(s[1..], k);
      assert HasId(s, k) ==> HasId(s[1..], k) by {
        if HasId(s, k) {
          var i :| 0 <= i < |s| && s[i].id == k;
          assert s[1..][i - 1].id == k;
        }
      }
      r
  }

  /** The last design of `s` with id `k`. */
  function LastWithId(s: seq<Design>, k: JsValue): (r: Option<Design>)
    ensures r.Some? <==> HasId(s, k)
    ensures r.Some? ==> r.value in s && r.value.id == k
    // it is the last one: no design after it has the id
    ensures r.Some? ==> exists i :: 0 <= i < |s| && s[i] == r.value && forall j :: i < j < |s| ==> s[j].id != k
  {
    if s == [] then None
    else if s[|s| - 1].id == k then Some(s[|s| - 1])
    else
      var r := LastWithId(s[..|s| - 1], k);
      assert forall i :: 0 <= i < |s| - 1 ==> s[..|s| - 1][i] == s[i];
      assert HasId(s, k) ==> HasId(s[..|s| - 1], k) by {
        if HasId(s, k) {
          var i :| 0 <= i < |s| && s[i].id == k;
          assert s[..|s| - 1][i].id == k;
        }
      }
      r
  }

  /** A JavaScript `Map` from ids to designs: its keys in insertion order
      and the design stored under each. */
  datatype IdMap = IdMap(keys: seq<JsValue>, entries: map<JsValue, Design>)

  ghost predicate WellFormed(m: IdMap) {
    && (forall i, j :: 0 <= i < j < |m.keys| ==> m.keys[i] != m.keys[j])
    && (forall k :: k in m.entries <==> k in m.keys)
    && (forall k :: k in m.entries ==> m.entries[k].id == k)
  }

  /** `map.set(d.id, d)`: a new key goes last, a known key keeps its place
      and takes the new value. */
  function Put(m: IdMap, d: Design): (r: IdMap)
    requires WellFormed(m)
    ensures WellFormed(r)
    ensures r.entries == m.entries[d.id := d]
    ensures r.keys == if d.id in m.entries then m.keys else m.keys + [d.id]
  {
    if d.id in m.entries then m.(entries := m.entries[d.id := d])
    else IdMap(m.keys + [d.id], m.entries[d.id := d])
  }

  /** `Array.from(map.values())`: one design per key, in key order, each
      carrying its key as id. */
  function Values(m: IdMap): (r: seq<Design>)
    requires WellFormed(m)
    ensures |r| == |m.keys|
    ensures forall i :: 0 <= i < |r| ==> r[i] == m.entries[m.keys[i]] && r[i].id == m.keys[i]
    ensures forall k :: HasId(r, k) <==> k in m.keys
    ensures DistinctIds(r)
  {
    var r := seq(|m.keys|, i requires 0 <= i < |m.keys| && WellFormed(m) => m.entries[m.keys[i]]);
    IdsFollowKeys(m, r);
    r
  }

  lemma IdsFollowKeys(m: IdMap, r: seq<Design>)
    requires WellFormed(m)
    requires |r| == |m.keys| && forall i :: 0 <= i < |r| ==> r[i] == m.entries[m.keys[i]]
    ensures forall k :: HasId(r, k) <==> k in m.keys
  {
    forall k | k in m.keys ensures HasId(r, k) {
      var i :| 0 <= i < |m.keys| && m.keys[i] == k;
      assert r[i].id == k;
    }
  }

  /** Appending a design does not move the first occurrence of an id
      already present, and a new id first occurs at the end. */
  lemma FirstIndexSnoc(s: seq<Design>, x: Design, k: JsValue)
    ensures HasId(s, k) ==> FirstIndex(s + [x], k) == FirstIndex(s, k)
    ensures !HasId(s, k) && x.id == k ==> FirstIndex(s + [x], k) == |s|
  {
    var t := s + [x];
    assert forall j :: 0 <= j < |s| ==> t[j] == s[j];
    assert t[|s|] == x;
  }

  /** Inserting the designs one after the other, left to right. */
  function Build(s: seq<Design>): (m: IdMap)
    ensures WellFormed(m)
    // one key for every id that occurs
    ensures forall k :: k in m.entries <==> HasId(s, k)
  {
    if s == [] then IdMap([], map[])
    else
      var m := Build(s[..|s| - 1]);
      HasIdSnoc(s);
      Put(m, s[|s| - 1])
  }

  /** An id occurs in a non-empty sequence iff it occurs before the last
      design or is the last design's id. */
  lemma HasIdSnoc(s: seq<Design>)
    requires s != []
    ensures forall k :: HasId(s, k) <==> HasId(s[..|s| - 1], k) || s[|s| - 1].id == k
  {
    var init := s[..|s| - 1];
    forall k ensures HasId(s, k) <==> HasId(init, k) || s[|s| - 1].id == k {
      if HasId(s, k) && !HasId(init, k) {
        var i :| 0 <= i < |s| && s[i].id == k;
        assert i == |s| - 1;
      }
      if HasId(init, k) {
        var i :| 0 <= i < |init| && init[i].id == k;
        assert s[i].id == k;
      }
    }
  }

  /** Each id of the map holds the last design that has it. */
  lemma {:induction false} BuildKeepsLast(s: seq<Design>)
    ensures forall k :: k in Build(s).entries ==> Some(Build(s).entries[k]) == LastWithId(s, k)
  {
    if s != [] {
      var init, x := s[..|s| - 1], s[|s| - 1];
      BuildKeepsLast(init);
      assert Build(s) == Put(Build(init), x);
    }
  }

  /** The keys of the map are in the order in which the ids first occur. */
  lemma {:induction false} BuildKeysInFirstOrder(s: seq<Design>)
    ensures forall i, j :: 0 <= i < j < |Build(s).keys| ==> FirstIndex(s, Build(s).keys[i]) < FirstIndex(s, Build(s).keys[j])
  {
    if s != [] {
      var init, x := s[..|s| - 1], s[|s| - 1];
      BuildKeysInFirstOrder(init);
      var m := Build(init);
      var r := Build(s);
      assert r == Put(m, x);
      SnocOfLast(s);
      forall i, j | 0 <= i < j < |r.keys| ensures FirstIndex(s, r.keys[i]) < FirstIndex(s, r.keys[j]) {
        FirstIndexSnoc(init, x, r.keys[i]);
        FirstIndexSnoc(init, x, r.keys[j]);
        assert r.keys[i] in m.keys;
        if j < |m.keys| {
          assert r.keys[j] in m.keys;
        }
      }
    }
  }

  lemma SnocOfLast<T>(s: seq<T>)
    requires s != []
    ensures s[..|s| - 1] + [s[|s| - 1]] == s
  {
  }

  /** `Array.from(new Map(all.map(d => [d.id, d])).values())`. */
  function Dedupe(s: seq<Design>): (r: seq<Design>)
    ensures DistinctIds(r)
    ensures forall k :: HasId(r, k) <==> HasId(s, k)
  {
    Values(Build(s))
  }

  /** What the de-duplication keeps: one design per id and every id, each
      id holding the last design that has it, at the place where the id
      first occurred. */
  lemma DedupeSpec(s: seq<Design>)
    ensures var r := Dedupe(s);
      // one design per id, and every id kept
      && (forall i, j :: 0 <= i < j < |r| ==> r[i].id != r[j].id)
      && (forall k :: HasId(s, k) <==> HasId(r, k))
      // the last design with an id wins, at the place the id first occurred
      && (forall i :: 0 <= i < |r| ==> Some(r[i]) == LastWithId(s, r[i].id))
      && (forall i, j :: 0 <= i < j < |r| ==> FirstIndex(s, r[i].id) < FirstIndex(s, r[j].id))
  {
    BuildKeepsLast(s);
    BuildKeysInFirstOrder(s);
  }

  predicate DistinctIds(s: seq<Design>) {
    forall i, j :: 0 <= i < j < |s| ==> s[i].id != s[j].id
  }

  /** Without repeated ids the map changes nothing. */
  lemma {:induction false} DedupeOfDistinct(s: seq<Design>)
    requires DistinctIds(s)
    ensures Dedupe(s) == s
  {
    BuildOfDistinct(s);
  }

  lemma {:induction false} BuildOfDistinct(s: seq<Design>)
    requires DistinctIds(s)
    ensures Values(Build(s)) == s
  {
    if s != [] {
      var init := s[..|s| - 1];
      var x := s[|s| - 1];
      assert DistinctIds(init);
      BuildOfDistinct(init);
      var m := Build(init);
      assert !HasId(init, x.id) by {
        forall i | 0 <= i < |init| ensures init[i].id != x.id {
          assert init[i] == s[i];
        }
      }
      assert Build(s) == Put(m, x);
      ValuesPutNew(m, x);
      calc {
        Values(Build(s));
        Values(m) + [x];
        init + [x];
        { SnocOfLast(s); }
        s;
      }
    }
  }

  /** Storing a design under a new id appends it to the values. */
  lemma ValuesPutNew(m: IdMap, x: Design)
    requires WellFormed(m) && x.id !in m.entries
    ensures Values(Put(m, x)) == Values(m) + [x]
  {
    var r := Put(m, x);
    assert r.keys == m.keys + [x.id];
    forall i | 0 <= i < |m.keys| ensures Values(r)[i] == Values(m)[i] {
      assert m.keys[i] in m.entries;
      assert r.keys[i] == m.keys[i];
    }
  }

  // ---------------------------------------------------------------------
  // The feed

  const FeedSize: nat := 5

  /** A card of the feed: a design, or a catalogue product padding it. */
  datatype Card<P> = Mine(design: Design) | Catalogue(product: P)

  /** `[...sorted.slice(0, 5), ...products.slice(0, 5 - n)]`. */
  function PopularCards<P>(sorted: seq<Design>, products: seq<P>): (r: seq<Card<P>>)
    ensures |r| == if |sorted| + |products| < FeedSize then |sorted| + |products| else FeedSize
    ensures forall i :: 0 <= i < |r| && i < |sorted| ==> r[i] == Mine(sorted[i])
    ensures forall i :: |sorted| <= i < |r| ==> i - |sorted| < |products| && r[i] == Catalogue(products[i - |sorted|])
    ensures forall i :: 0 <= i < |r| ==> (r[i].Mine? <==> i < |sorted|)
  {
    var mine := if |sorted| <= FeedSize then sorted else sorted[..FeedSize];
    var needed := FeedSize - |mine|;
    var padding := if |products| <= needed then products else products[..needed];
    seq(|mine|, i requires 0 <= i < |mine| => Mine(mine[i])) + seq(|padding|, i requires 0 <= i < |padding| => Catalogue(padding[i]))
  }

  /** The designs the feed chooses from: after a Firebase read, the listed
      designs of the Firebase, user and NGO lists with one design per id;
      when the read failed, the listed designs of the local lists only,
      repeats included. Each list is filtered on its own and the results
      are concatenated, which is filtering the concatenated lists
      (`ValidDesignsOfAppend`). */
  function DesignPool(firebase: Option<seq<Entry>>, user: seq<Entry>, ngo: seq<Entry>): (r: seq<Design>)
    ensures AllListed(r)
    ensures firebase.None? ==> r == ValidDesigns(user + ngo)
    ensures firebase.Some? ==> DistinctIds(r)
    ensures firebase.Some? ==> forall k :: HasId(r, k) <==> HasId(ValidDesigns(firebase.value + user + ngo), k)
  {
    var all := if firebase.Some? then firebase.value + user + ngo else user + ngo;
    AllValidListed(all);
    if firebase.None? then ValidDesigns(all)
    else
      DedupeKeepsListed(ValidDesigns(all));
      Dedupe(ValidDesigns(all))
  }

  lemma AllValidListed(entries: seq<Entry>)
    ensures AllListed(ValidDesigns(entries))
  {
  }

  /** A local list as `JSON.parse(localStorage.getItem(key) || '[]')` gives
      it: an array, or anything else (unparsable text, a non-array), on
      which the pipeline throws. */
  datatype LocalList = Parsed(entries: seq<Entry>) | Unreadable

  /** The designs `loadData` shows. `firebase` is None when the Firebase
      read threw. None is the result when a local list is unreadable: the
      catch block reads the same lists again and throws out of `loadData`,
      so no feed is ever set. */
  function LoadDesigns<P>(firebase: Option<seq<Entry>>, user: LocalList, ngo: LocalList, products: seq<P>): (r: Option<seq<Card<P>>>)
    ensures r.None? <==> user.Unreadable? || ngo.Unreadable?
  {
    if user.Unreadable? || ngo.Unreadable? then None
    else Some(PopularCards(SortNewestFirst(DesignPool(firebase, user.entries, ngo.entries), CreatedTime), products))
  }

  /** The cards `r` show the designs `shown`, in order, each as itself,
      then products in their order, five cards in all or fewer when
      designs and products run out; every design shown is listed. */
  ghost predicate FeedCards<P>(r: seq<Card<P>>, shown: seq<Design>, products: seq<P>) {
    && |r| == (if |shown| + |products| < FeedSize then |shown| + |products| else FeedSize)
    && |shown| <= |r|
    && (forall i :: 0 <= i < |shown| ==> r[i] == Mine(shown[i]))
    && (forall i :: |shown| <= i < |r| ==> r[i] == Catalogue(products[i - |shown|]))
    && (forall i :: 0 <= i < |r| && r[i].Mine? ==> IsListed(Some(r[i].design)))
  }

  /** The feed shows the five newest designs of the pool, newest first,
      then products in their order up to five cards in all. */
  lemma FeedShowsNewestListedDesigns<P>(firebase: Option<seq<Entry>>, user: seq<Entry>, ngo: seq<Entry>, products: seq<P>)
    ensures FeedCards(LoadDesigns(firebase, Parsed(user), Parsed(ngo), products).value,
                      Newest(DesignPool(firebase, user, ngo), CreatedTime, FeedSize), products)
  {
    var pool := DesignPool(firebase, user, ngo);
    var sorted := SortNewestFirst(pool, CreatedTime);
    var shown := Newest(pool, CreatedTime, FeedSize);
    assert |shown| == (if |sorted| < FeedSize then |sorted| else FeedSize);
    assert shown == sorted[..|shown|];
    assert AllListed(shown);
    CardsOfNewest(sorted, shown, products);
  }

  /** The cards of a newest-first list are those of its first five. */
  lemma CardsOfNewest<P>(sorted: seq<Design>, shown: seq<Design>, products: seq<P>)
    requires |shown| == (if |sorted| < FeedSize then |sorted| else FeedSize)
    requires shown == sorted[..|shown|]
    requires AllListed(shown)
    ensures FeedCards(PopularCards(sorted, products), shown, products)
  {
    var r := PopularCards(sorted, products);
    forall i | 0 <= i < |r| && r[i].Mine? ensures IsListed(Some(r[i].design)) {
      assert r[i] == Mine(sorted[i]) && sorted[i] == shown[i];
    }
  }

  predicate AllListed(s: seq<Design>) {
    forall d :: d in s ==> IsListed(Some(d))
  }

  lemma AppendListed(a: seq<Design>, b: seq<Design>)
    requires AllListed(a) && AllListed(b)
    ensures AllListed(a + b)
  {
  }

  lemma DedupeKeepsListed(s: seq<Design>)
    requires AllListed(s)
    ensures AllListed(Dedupe(s))
  {
    var r := Dedupe(s);
    DedupeSpec(s);
    forall d | d in r ensures IsListed(Some(d)) {
      var i :| 0 <= i < |r| && r[i] == d;
      assert LastWithId(s, d.id) == Some(d);
    }
  }

  /** With the Firebase read, a design id appears at most once. */
  lemma FirebaseFeedIdsDistinct<P>(firebase: seq<Entry>, user: seq<Entry>, ngo: seq<Entry>, products: seq<P>)
    ensures var r := LoadDesigns(Some(firebase), Parsed(user), Parsed(ngo), products).value;
      forall i, j :: 0 <= i < j < |r| && r[i].Mine? && r[j].Mine? ==> r[i].design.id != r[j].design.id
  {
    SortKeepsDistinctIds(DesignPool(Some(firebase), user, ngo));
  }

  /** Inserting a design whose id is new keeps the ids distinct. */
  lemma InsertKeepsDistinctIds(x: Design, s: seq<Design>)
    requires DistinctIds(s)
    requires forall i :: 0 <= i < |s| ==> s[i].id != x.id
    ensures DistinctIds(Insert(x, s, CreatedTime))
  {
    var p := InsertPosition(x, s, CreatedTime);
    var r := Insert(x, s, CreatedTime);
    SpliceAt(s, p, x, r);
    forall i, j | 0 <= i < j < |r| ensures r[i].id != r[j].id {
      var a := if i < p then i else i - 1;
      var b := if j <= p then j else j - 1;
      if i == p {
        assert r[j] == s[j - 1];
      } else if j == p {
        assert r[i] == s[i];
      } else {
        assert r[i] == s[a] && r[j] == s[b] && a < b;
      }
    }
  }

  /** Sorting keeps the ids distinct. */
  lemma {:induction false} SortKeepsDistinctIds(s: seq<Design>)
    requires DistinctIds(s)
    ensures DistinctIds(SortNewestFirst(s, CreatedTime))
  {
    if s != [] {
      var rest := s[1..];
      assert DistinctIds(rest);
      SortKeepsDistinctIds(rest);
      var sorted := SortNewestFirst(rest, CreatedTime);
      forall i | 0 <= i < |sorted| ensures sorted[i].id != s[0].id {
        assert sorted[i] in multiset(rest);
        var j :| 0 <= j < |rest| && rest[j] == sorted[i];
        assert s[j + 1] == sorted[i];
      }
      InsertKeepsDistinctIds(s[0], sorted);
    }
  }

  /** When the Firebase read fails, a design saved in both local lists is
      shown twice. */
  lemma LocalOnlyFeedRepeats<P>(d: Design, products: seq<P>)
    requires IsListed(Some(d))
    ensures var r := LoadDesigns(None, Parsed([Some(d)]), Parsed([Some(d)]), products).value;
      |r| >= 2 && r[0] == Mine(d) && r[1] == Mine(d)
  {
    assert ValidDesigns([Some(d)]) == [d];
    assert SortNewestFirst([d, d], CreatedTime) == [d, d];
  }

  /** A design saved locally replaces the Firebase design with the same id. */
  lemma LocalCopyReplacesFirebase(f: Design, u: Design)
    requires IsListed(Some(f)) && IsListed(Some(u)) && f.id == u.id
    ensures Dedupe(ValidDesigns([Some(f)]) + ValidDesigns([Some(u)]) + ValidDesigns([])) == [u]
  {
    var s := [f, u];
    assert [Some(f)][1..] == [];
    assert ValidDesigns([Some(f)]) == [f];
    assert [Some(u)][1..] == [];
    assert ValidDesigns([Some(u)]) == [u];
    assert ValidDesigns([Some(f)]) + ValidDesigns([Some(u)]) + ValidDesigns([]) == s;
    var m0 := Build([f][..0]);
    assert [f][..0] == [];
    assert m0 == IdMap([], map[]);
    var m1 := Build(s[..1]);
    assert s[..1] == [f];
    assert m1 == Put(m0, f);
    assert m1 == IdMap([f.id], map[f.id := f]);
    assert Build(s) == Put(m1, u);
    var m2 := Put(m1, u);
    assert m2.keys == [f.id] && m2.entries[f.id] == u;
    assert Values(m2) == [u];
  }
}
