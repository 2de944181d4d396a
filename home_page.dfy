/** The home page's data loading (Home.tsx): the five-minute cache kept in
    the browser's local storage, the popular-campaign list shown from the
    cache first and then from the chain, the state `loadData` leaves
    behind, and the route the "get started" button takes. */
module HomePage {
  import opened JsValues
  import opened JsNumbers
  import opened Ordering
  import opened DesignFeed

  /** Five minutes, in milliseconds. */
  const CacheTtlMillis: int := 5 * 60 * 1000

  const PopularCampaignsKey: string := "home_popular_campaigns"

  /** A campaign as `listAllCampaignsFromChain` lists it. Only the fields
      the page reads are modelled; `createdAt` is the time value the
      comparator obtains from it, None when it is missing or falsy. */
  datatype Listing = Listing(id: JsValue, createdAt: Option<int>)

  /** `new Date(c.createdAt || 0).getTime()`. */
  function ListingTime(c: Listing): int {
    if c.createdAt.Some? then c.createdAt.value else 0
  }

  /** What the cache holds under a key: a plain value, or a list of
      campaigns. An array is truthy even when it is empty. */
  datatype Data = Scalar(v: JsValue) | Listings(items: seq<Listing>)

  predicate DataTruthy(d: Data) {
    d.Listings? || Truthy(d.v)
  }

  /** The text stored under a key, as `JSON.parse` reads it: the empty
      string, text that does not parse, or a parsed value with its `ts` and
      `data` fields. A parsed value that is not an object has neither field
      and appears as `Record(Undefined, Scalar(Undefined))`. */
  datatype Stored = Blank | Unparsable | Record(ts: JsValue, data: Data)

  /** `Date.now() - parsed.ts > CACHE_TTL_MS`; a timestamp that is not a
      number makes the difference NaN, and NaN is never greater. */
  predicate Expired(ts: JsValue, now: int) {
    match ToNumber(ts)
    case Some(t) => now as real - t > CacheTtlMillis as real
    case None => false
  }

  /** `getCache(key)` on the stored items at time `now`. */
  function Lookup(items: map<string, Stored>, key: string, now: int): (r: Option<Data>)
    // a hit is the stored data of a well-formed record that is stamped and not yet stale
    ensures r.Some? <==> key in items && items[key].Record? && DataTruthy(items[key].data) &&
                         Truthy(items[key].ts) && !Expired(items[key].ts, now)
    ensures r.Some? ==> r.value == items[key].data && DataTruthy(r.value)
  {
    if key !in items then None
    else
      match items[key]
      case Blank => None
      case Unparsable => None
      case Record(ts, data) =>
        if !DataTruthy(data) || !Truthy(ts) then None
        else if Expired(ts, now) then None
        else Some(data)
  }

  /** A value after `JSON.stringify` and `JSON.parse`: NaN becomes null,
      everything else the model holds survives. */
  function JsonValue(v: JsValue): JsValue {
    if v.NaN? then Null else v
  }

  function Serialized(d: Data): (r: Data)
    ensures DataTruthy(r) <==> DataTruthy(d)
    ensures r.Listings? <==> d.Listings?
    ensures d.Listings? ==> |r.items| == |d.items|
  {
    match d
    case Scalar(v) => Scalar(JsonValue(v))
    case Listings(items) => Listings(SerializedListings(items))
  }

  function SerializedListings(items: seq<Listing>): (r: seq<Listing>)
    ensures |r| == |items|
    ensures forall i :: 0 <= i < |items| ==> r[i] == items[i].(id := JsonValue(items[i].id))
  {
    if items == [] then [] else [items[0].(id := JsonValue(items[0].id))] + SerializedListings(items[1..])
  }

  /** `setCache(key, data)` at time `now`: the record `{ ts, data }`. */
  function Stamp(now: int, d: Data): (r: Stored)
    ensures r.Record?
    // the record is fresh when written, and its stamp counts only when not 0
    ensures !Expired(r.ts, now) && (Truthy(r.ts) <==> now != 0)
    ensures DataTruthy(r.data) <==> DataTruthy(d)
  {
    Record(Num(now as real), Serialized(d))
  }

  /** What is written and then read back within five minutes is what was
      written, unless it is falsy or was written at time 0; an entry older
      than five minutes is gone, and no other key is affected. */
  lemma CacheRoundTrip(items: map<string, Stored>, key: string, d: Data, written: int, now: int)
    ensures Lookup(items[key := Stamp(written, d)], key, now).Some?
            <==> DataTruthy(d) && written != 0 && now - written <= CacheTtlMillis
    ensures Lookup(items[key := Stamp(written, d)], key, now).Some? ==>
            Lookup(items[key := Stamp(written, d)], key, now).value == Serialized(d)
    ensures forall other :: other != key ==> Lookup(items[key := Stamp(written, d)], other, now) == Lookup(items, other, now)
  {
    assert ToNumber(Num(written as real)) == Some(written as real);
  }

  /** An entry exactly five minutes old is still served; one millisecond
      later it is not. */
  lemma TtlBoundary(items: map<string, Stored>, key: string, d: Data, written: int)
    requires DataTruthy(d) && written != 0
    ensures Lookup(items[key := Stamp(written, d)], key, written + CacheTtlMillis) == Some(Serialized(d))
    ensures Lookup(items[key := Stamp(written, d)], key, written + CacheTtlMillis + 1).None?
  {
    CacheRoundTrip(items, key, d, written, written + CacheTtlMillis);
    CacheRoundTrip(items, key, d, written, written + CacheTtlMillis + 1);
  }

  /** A timestamp that is truthy but not a number (a word such as "soon",
      see WordIsNaN) never expires. */
  lemma NonNumericTimestampNeverExpires(items: map<string, Stored>, key: string, ts: JsValue, d: Data, now: int)
    requires DataTruthy(d) && Truthy(ts) && ToNumber(ts).None?
    ensures Lookup(items[key := Record(ts, d)], key, now) == Some(d)
  {
  }

  lemma WordIsNaN()
    ensures StringToNumber("soon").None?
  {
    TrimNoop("soon");
    assert RadixPrefix("soon") == 0;
    assert DigitRun("soon", 10) == 0;
    assert DigitRun("soon"[1..], 10) == 0;
  }

  /** Serialising a value without NaN changes nothing. */
  lemma SerializedWithoutNaN(d: Data)
    requires d.Scalar? ==> !d.v.NaN?
    requires d.Listings? ==> forall i :: 0 <= i < |d.items| ==> !d.items[i].id.NaN?
    ensures Serialized(d) == d
  {
    if d.Listings? {
      assert Serialized(d).items == d.items;
    }
  }

  /** The browser's local storage, as far as the cache uses it. */
  class LocalStore {
    var items: map<string, Stored>

    constructor (items: map<string, Stored>)
      ensures this.items == items
    {
      this.items := items;
    }

    /** `getCache(key)`: the stored data, unless the key is missing, its
        text is blank or does not parse, its data or timestamp is falsy,
        or it is more than five minutes old. */
    function Get(key: string, now: int): (r: Option<Data>)
      reads this
      ensures r.Some? <==> key in items && items[key].Record? && DataTruthy(items[key].data)
                           && Truthy(items[key].ts) && !Expired(items[key].ts, now)
      ensures r.Some? ==> r.value == items[key].data && DataTruthy(r.value)
    {
      Lookup(items, key, now)
    }

    /** `setCache(key, data)`. `writable` is false when serialising or
        storing throws (a BigInt in the data, a full or blocked storage);
        the error is swallowed and nothing is stored. */
    method Set(key: string, d: Data, now: int, writable: bool)
      modifies this
      ensures items == if writable then old(items)[key := Stamp(now, d)] else old(items)
    {
      if writable {
        items := items[key := Stamp(now, d)];
      }
    }
  }

  // ---------------------------------------------------------------------
  // Popular campaigns

  const PopularSize: nat := 5

  /** The chain's campaigns newest first, cut to five. */
  function TopCampaigns(list: seq<Listing>): (r: seq<Listing>)
    ensures |r| == if |list| < PopularSize then |list| else PopularSize
    ensures NewestFirst(r, ListingTime)
    ensures multiset(r) <= multiset(list)
    // nothing left out is newer than the last one shown
    ensures r != [] ==> forall c :: c in list && ListingTime(c) > ListingTime(r[|r| - 1]) ==> c in r
  {
    Newest(list, ListingTime, PopularSize)
  }

  /** The successive values `loadData` gives the popular-campaign list:
      the cached list when there is one, then the chain's top five, or the
      empty list when the chain read throws. */
  function CampaignFrames(cached: Option<Data>, chain: Outcome<seq<Listing>>): (r: seq<Data>)
    ensures |r| == if cached.Some? then 2 else 1
    ensures cached.Some? ==> r[0] == cached.value
    ensures chain.Ok? ==> r[|r| - 1] == Listings(TopCampaigns(chain.value))
    ensures chain.Thrown? ==> r[|r| - 1] == Listings([])
  {
    (if cached.Some? then [cached.value] else [])
    + [match chain
       case Ok(list) => Listings(TopCampaigns(list))
       case Thrown(_) => Listings([])]
  }

  /** A chain failure empties the list even after a cached list was shown. */
  lemma ChainFailureHidesCache(cached: Data, message: string)
    ensures CampaignFrames(Some(cached), Thrown(message)) == [cached, Listings([])]
  {
  }

  /** The list written to the cache on one visit is what the next visit
      within five minutes shows first. */
  lemma NextVisitShowsCachedTop(items: map<string, Stored>, list: seq<Listing>, written: int, now: int,
                                chain: Outcome<seq<Listing>>)
    requires written != 0 && now - written <= CacheTtlMillis
    ensures var next := CampaignFrames(Lookup(items[PopularCampaignsKey := Stamp(written, Listings(TopCampaigns(list)))],
                                              PopularCampaignsKey, now), chain);
            |next| == 2 && next[0] == Serialized(Listings(TopCampaigns(list)))
  {
    CacheRoundTrip(items, PopularCampaignsKey, Listings(TopCampaigns(list)), written, now);
  }

  // ---------------------------------------------------------------------
  // The page

  /** The state `loadData` fills in. */
  class Home<P> {
    var popularDesigns: seq<Card<P>>
    var popularCampaigns: Data
    var isLoading: bool

    constructor ()
      ensures popularDesigns == [] && popularCampaigns == Listings([]) && isLoading
    {
      popularDesigns := [];
      popularCampaigns := Listings([]);
      isLoading := true;
    }

    /** `loadData`, with the outside's answers given: the Firebase designs
        (None when the read throws), the two local design lists, the
        catalogue products, the chain's campaign list, and the times of the
        cache read and write. When a local list cannot be read the error
        escapes `loadData` and nothing is set. `shown` is the sequence of
        values the popular-campaign list takes. */
    method LoadData(firebase: Option<seq<Entry>>, user: LocalList, ngo: LocalList, products: seq<P>,
                    chain: Outcome<seq<Listing>>, cache: LocalStore, readTime: int, writeTime: int, writable: bool)
      returns (shown: seq<Data>)
      modifies this, cache
      ensures match LoadDesigns(firebase, user, ngo, products)
              case None => shown == [] && unchanged(this) && unchanged(cache)
              case Some(cards) =>
                && popularDesigns == cards
                && shown == CampaignFrames(old(cache.Get(PopularCampaignsKey, readTime)), chain)
                && popularCampaigns == shown[|shown| - 1]
                && !isLoading
                && cache.items == CacheAfter(old(cache.items), chain, writeTime, writable)
    {
      shown := [];
      var designs := LoadDesigns(firebase, user, ngo, products);
      if designs.None? {
        return;
      }
      ghost var cached := cache.Get(PopularCampaignsKey, readTime);
      ghost var items := cache.items;
      popularDesigns := designs.value;
      shown := LoadPopularCampaigns(chain, cache, readTime, writeTime, writable);
      assert shown == CampaignFrames(cached, chain);
      assert cache.items == CacheAfter(items, chain, writeTime, writable);
      isLoading := false;
    }

    /** The second block of `loadData`: the cached list first, then the
        chain's top five written back to the cache, or the empty list. */
    method LoadPopularCampaigns(chain: Outcome<seq<Listing>>, cache: LocalStore, readTime: int, writeTime: int, writable: bool)
      returns (shown: seq<Data>)
      modifies this`popularCampaigns, cache
      ensures shown == CampaignFrames(old(cache.Get(PopularCampaignsKey, readTime)), chain)
      ensures popularCampaigns == shown[|shown| - 1]
      ensures cache.items == CacheAfter(old(cache.items), chain, writeTime, writable)
    {
      shown := [];
      var cached := cache.Get(PopularCampaignsKey, readTime);
      if cached.Some? {
        popularCampaigns := cached.value;
        shown := shown + [popularCampaigns];
      }
      if chain.Ok? {
        var top := TopCampaigns(chain.value);
        popularCampaigns := Listings(top);
        shown := shown + [popularCampaigns];
        cache.Set(PopularCampaignsKey, Listings(top), writeTime, writable);
      } else {
        popularCampaigns := Listings([]);
        shown := shown + [popularCampaigns];
      }
    }
  }

  /** The cache after the campaign block: the top five written under the
      popular-campaign key when the chain answered and storing worked. */
  function CacheAfter(items: map<string, Stored>, chain: Outcome<seq<Listing>>, writeTime: int, writable: bool)
    : map<string, Stored>
  {
    if chain.Ok? && writable then items[PopularCampaignsKey := Stamp(writeTime, Listings(TopCampaigns(chain.value)))]
    else items
  }

  // ---------------------------------------------------------------------
  // The "get started" button

  const CreateDesignRoute: string := "/create-design"
  const BecomeDesignerRoute: string := "/become-a-designer"

  /** Where `handleGetStarted` navigates, and whether it asked for the
      user's roles. */
  datatype GetStarted = GetStarted(askedRoles: bool, route: string)

  /** `roles` is the `isDesigner` field of `getUserRoles`'s answer, or
      Thrown when the call (or the field access) throws. */
  function GetStartedRoute(isConnected: bool, address: Option<string>, roles: Outcome<JsValue>): (r: GetStarted)
    ensures r.askedRoles <==> isConnected && address.Some? && address.value != ""
    ensures r.route == CreateDesignRoute <==> r.askedRoles && roles.Ok? && Truthy(roles.value)
    ensures r.route == CreateDesignRoute || r.route == BecomeDesignerRoute
  {
    if isConnected && address.Some? && address.value != "" then
      match roles
      case Ok(isDesigner) =>
        if Truthy(isDesigner) then GetStarted(true, CreateDesignRoute) else GetStarted(true, BecomeDesignerRoute)
      case Thrown(_) => GetStarted(true, BecomeDesignerRoute)
    else GetStarted(false, BecomeDesignerRoute)
  }
}
