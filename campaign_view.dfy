/** The campaign page's reconciliation of its sources (CampaignDetails.tsx):
    the lookup of a fallback record, the merge of fallback, chain record,
    IPFS metadata and donation total into one view, the decision between
    "not found" and "show the fallback", the related-campaign list, the
    ownership check and the conditions that enable the donate form. */
module CampaignView {
  import opened JsValues
  import opened JsNumbers

  /** A campaign object as the page holds it: an entry of the Firebase
      collection or of the built-in default list, or the merged view. Any
      field may be missing (Undefined). Only the fields the page reads or
      writes are modelled. */
  datatype Campaign = Campaign(
    id: JsValue, onchainId: JsValue,
    title: JsValue, description: JsValue, image: JsValue,
    goal: JsValue, target: JsValue,
    amountRaised: JsValue, percentage: JsValue,
    ngoName: JsValue, ngoWallet: JsValue, walletAddress: JsValue,
    active: JsValue)

  /** The empty object `{}`. */
  const NoFields := Campaign(Undefined, Undefined, Undefined, Undefined, Undefined, Undefined, Undefined,
                             Undefined, Undefined, Undefined, Undefined, Undefined, Undefined)

  /** The registry's answer for one campaign, when it has one. */
  datatype ChainCampaign = ChainCampaign(title: JsValue, description: JsValue, image: JsValue,
                                         goalHBAR: int, ngo: JsValue, active: JsValue)

  /** The metadata document fetched through the campaign's content address. */
  datatype Metadata = Metadata(title: JsValue, description: JsValue, image: JsValue, goal: JsValue)

  /** The registry stores goals in units of 10^-18. */
  const GoalUnitsPerHbar: int := 1000000000000000000

  // ---------------------------------------------------------------------
  // Looking up the fallback record

  /** `id || text` for the route parameter. */
  function RouteText(routeId: Option<string>, text: string): string {
    if routeId.Some? && routeId.value != "" then routeId.value else text
  }

  /** `value?.toString() === routeId`: a missing value renders as undefined,
      which equals a missing route parameter. Numbers render in decimal;
      a non-integral number never equals the parameter here. */
  predicate TextEquals(v: JsValue, routeId: Option<string>) {
    match v
    case Undefined => routeId.None?
    case Null => routeId.None?
    case Bool(b) => routeId == Some(if b then "true" else "false")
    case Num(n) => IsIntegral(n) && routeId == Some(IntToString(n.Floor))
    case NaN => routeId == Some("NaN")
    case Str(s) => routeId == Some(s)
  }

  /** `value === parseInt(...)`: strict equality with a number; NaN equals nothing. */
  predicate EqualsParsed(v: JsValue, parsed: Option<int>) {
    parsed.Some? && v == Num(parsed.value as real)
  }

  /** The id the lookup compares numerically: `parseInt(id || '1')`. */
  function LookupNumber(routeId: Option<string>): Option<int> {
    ParseInt(RouteText(routeId, "1"), 0)
  }

  /** What the lookup compares records with: the parsed number and the raw
      route parameter. */
  datatype RouteKey = RouteKey(number: Option<int>, text: Option<string>)

  function KeyOf(routeId: Option<string>): RouteKey {
    RouteKey(LookupNumber(routeId), routeId)
  }

  /** The lookup's test: id or onchainId equal the parsed route id as
      numbers, or render to the route id as text. */
  predicate Matches(c: Campaign, key: RouteKey) {
    EqualsParsed(c.id, key.number) || TextEquals(c.id, key.text)
    || EqualsParsed(c.onchainId, key.number) || TextEquals(c.onchainId, key.text)
  }

  predicate MatchesRoute(c: Campaign, routeId: Option<string>) {
    Matches(c, KeyOf(routeId))
  }

  /** The position `Array.prototype.find` stops at: the first record that matches. */
  function FirstMatch(list: seq<Campaign>, key: RouteKey): (r: Option<nat>)
    ensures r.Some? ==> r.value < |list| && Matches(list[r.value], key)
    ensures forall j :: 0 <= j < |list| && (r.None? || j < r.value) ==> !Matches(list[j], key)
  {
    if list == [] then None
    else if Matches(list[0], key) then Some(0)
    else
      match FirstMatch(list[1..], key)
      case None => None
      case Some(k) => Some(k + 1)
  }

  /** The fallback record, `found`. */
  function Found(list: seq<Campaign>, routeId: Option<string>): Option<Campaign> {
    match FirstMatch(list, KeyOf(routeId))
    case None => None
    case Some(i) => Some(list[i])
  }

  /** The Firebase records come first, so a Firebase record that matches
      shadows every default record; only when none matches is the first
      matching default record found. */
  lemma {:induction false} FirebaseShadowsDefaults(firebase: seq<Campaign>, defaults: seq<Campaign>, key: RouteKey)
    ensures FirstMatch(firebase, key).Some? ==> FirstMatch(firebase + defaults, key) == FirstMatch(firebase, key)
    ensures FirstMatch(firebase, key).None? ==>
      FirstMatch(firebase + defaults, key) ==
        match FirstMatch(defaults, key)
        case None => None
        case Some(k) => Some(|firebase| + k)
  {
    if firebase != [] {
      assert (firebase + defaults)[0] == firebase[0];
      assert (firebase + defaults)[1..] == firebase[1..] + defaults;
      FirebaseShadowsDefaults(firebase[1..], defaults, key);
    } else {
      assert firebase + defaults == defaults;
    }
  }

  /** Without a route parameter the lookup parses '1', and a record without
      an id (or without an onchainId) matches too, since
      `undefined?.toString() === undefined`. */
  lemma MissingRouteId(c: Campaign)
    ensures MatchesRoute(c, None) <==>
      c.id == Num(1.0) || c.id.Undefined? || c.id.Null? ||
      c.onchainId == Num(1.0) || c.onchainId.Undefined? || c.onchainId.Null?
  {
    DefaultLookupNumber();
  }

  lemma DefaultLookupNumber()
    ensures LookupNumber(None) == Some(1)
  {
    assert RouteText(None, "1") == IntToString(1) by {
      assert IntToString(1) == NatToString(1) == "1";
    }
    ParseIntOfIntToString(1);
  }

  /** A record stored with a numeric id and one stored with the same id as a
      string are both found by the id's decimal text. */
  lemma NumericAndTextIdsBothMatch(c: Campaign, n: int)
    requires c.id == Num(n as real) || c.id == Str(IntToString(n))
    ensures MatchesRoute(c, Some(IntToString(n)))
  {
  }

  /** The related list: `fallback.filter(c => c.id !== parseInt(id || '1') && c.id?.toString() !== id)`. */
  predicate SameIdAsRoute(c: Campaign, routeId: Option<string>) {
    EqualsParsed(c.id, LookupNumber(routeId)) || TextEquals(c.id, routeId)
  }

  /** The callback of that `filter`. */
  function DifferentIdFromRoute(routeId: Option<string>): Campaign -> bool {
    c => !SameIdAsRoute(c, routeId)
  }

  function OtherCampaigns(list: seq<Campaign>, routeId: Option<string>): (r: seq<Campaign>)
    ensures |r| <= |list|
    ensures forall c :: c in r <==> c in list && !SameIdAsRoute(c, routeId)
  {
    Filter(list, DifferentIdFromRoute(routeId))
  }

  /** The related list keeps the order and the repeats of the fallback list:
      filtering two lists one after the other gives the kept campaigns of
      the first followed by those of the second. */
  lemma OtherCampaignsOfAppend(a: seq<Campaign>, b: seq<Campaign>, routeId: Option<string>)
    ensures OtherCampaigns(a + b, routeId) == OtherCampaigns(a, routeId) + OtherCampaigns(b, routeId)
  {
    FilterOfAppend(a, b, DifferentIdFromRoute(routeId));
  }

  /** A single campaign is kept, as itself, exactly when its id is not the route's. */
  lemma OtherCampaignsOfOne(c: Campaign, routeId: Option<string>)
    ensures OtherCampaigns([c], routeId) == if SameIdAsRoute(c, routeId) then [] else [c]
  {
    FilterOfOne(c, DifferentIdFromRoute(routeId));
  }

  /** The related campaigns rendered: `allCampaigns.slice(0, 5)`. */
  function RelatedShown(related: seq<Campaign>): (r: seq<Campaign>)
    ensures |r| <= 5 && |r| <= |related| && r == related[..|r|]
    ensures |r| == 5 || r == related
  {
    if |related| <= 5 then related else related[..5]
  }

  /** The related list excludes by `id` only: a record found through its
      onchainId while its id is something else stays among the related
      campaigns of its own page. */
  lemma FoundByOnchainIdStaysRelated(c: Campaign, routeId: Option<string>)
    requires !SameIdAsRoute(c, routeId)
    requires EqualsParsed(c.onchainId, LookupNumber(routeId)) || TextEquals(c.onchainId, routeId)
    ensures Found([c], routeId) == Some(c) && c in OtherCampaigns([c], routeId)
  {
  }

  // ---------------------------------------------------------------------
  // The merged view

  /** `goal > 0 ? (amountRaised / goal) * 100 : 0`, with JavaScript's
      numeric coercion of both operands. */
  function Percentage(amountRaised: JsValue, goal: JsValue): (r: JsValue)
    // a goal that is not a positive number gives 0 rather than a division
    ensures var g := ToNumber(goal); !(g.Some? && g.value > 0.0) ==> r == Num(0.0)
    // a raised amount that is no number makes the quotient NaN
    ensures var g := ToNumber(goal); g.Some? && g.value > 0.0 && ToNumber(amountRaised).None? ==> r == NaN
    // otherwise the percentage of the goal that was raised
    ensures var g, a := ToNumber(goal), ToNumber(amountRaised);
      g.Some? && g.value > 0.0 && a.Some? ==> r == Num(Share(a.value, g.value))
  {
    var goalNumber := ToNumber(goal);
    if goalNumber.None? || goalNumber.value <= 0.0 then Num(0.0)
    else
      match ToNumber(amountRaised)
      case None => NaN
      case Some(a) => Num(Share(a, goalNumber.value))
  }

  /** `(amountRaised / goal) * 100` for a positive goal: the amount as a
      percentage of the goal. */
  function Share(amount: real, goal: real): (r: real)
    requires goal > 0.0
    ensures r * goal == amount * 100.0
  {
    ShareTimesGoal(amount, goal);
    amount / goal * 100.0
  }

  /** The percentage is the share of the goal raised, in percent, and is not
      capped: it reaches 100 exactly when the goal is met. A goal that is
      not a positive number gives 0 rather than a division. */
  lemma PercentageOfGoal(raised: real, goal: JsValue)
    ensures ToNumber(goal).Some? && ToNumber(goal).value > 0.0 ==>
      var g := ToNumber(goal).value;
      Percentage(Num(raised), goal) == Num(raised / g * 100.0) &&
      (raised >= g <==> Percentage(Num(raised), goal).n >= 100.0)
    ensures !(ToNumber(goal).Some? && ToNumber(goal).value > 0.0) ==> Percentage(Num(raised), goal) == Num(0.0)
  {
    if ToNumber(goal).Some? && ToNumber(goal).value > 0.0 {
      ShareReachesWhole(raised, ToNumber(goal).value);
    }
  }

  lemma ShareTimesGoal(a: real, g: real)
    requires g > 0.0
    ensures a / g * 100.0 * g == a * 100.0
  {
    var q := a / g;
    assert q * g == a;
    assert q * 100.0 * g == q * g * 100.0;
  }

  lemma ShareReachesWhole(a: real, g: real)
    requires g > 0.0
    ensures a / g * 100.0 >= 100.0 <==> a >= g
  {
    var q := a / g;
    assert q * g == a;
    if q >= 1.0 {
      assert q * g >= 1.0 * g;
    } else {
      assert q * g < 1.0 * g;
    }
  }

  lemma PercentageExamples()
    ensures Percentage(Num(50.0), Num(200.0)) == Num(25.0)
    ensures Percentage(Num(300.0), Num(200.0)) == Num(150.0)
    ensures forall a :: Percentage(a, Num(0.0)) == Num(0.0)
  {
  }

  /** `found?.field` for each field the merge reads. */
  function FoundTitle(found: Option<Campaign>): JsValue { if found.Some? then found.value.title else Undefined }
  function FoundDescription(found: Option<Campaign>): JsValue { if found.Some? then found.value.description else Undefined }
  function FoundImage(found: Option<Campaign>): JsValue { if found.Some? then found.value.image else Undefined }

  /** `chainCampaign?.field`. */
  function ChainTitle(chain: Option<ChainCampaign>): JsValue { if chain.Some? then chain.value.title else Undefined }
  function ChainDescription(chain: Option<ChainCampaign>): JsValue { if chain.Some? then chain.value.description else Undefined }
  function ChainImage(chain: Option<ChainCampaign>): JsValue { if chain.Some? then chain.value.image else Undefined }

  /** The metadata fields after the fetch: `metaTitle` and `metaDesc` start
      as '' and `metaImage`, `metaGoal` as undefined. */
  function MetaTitle(meta: Option<Metadata>): JsValue { if meta.Some? then meta.value.title else Str("") }
  function MetaDescription(meta: Option<Metadata>): JsValue { if meta.Some? then meta.value.description else Str("") }
  function MetaImage(meta: Option<Metadata>): JsValue { if meta.Some? then meta.value.image else Undefined }
  function MetaGoal(meta: Option<Metadata>): JsValue { if meta.Some? then meta.value.goal else Undefined }

  /** The goal stored in the view: the metadata goal unless it is undefined,
      else the chain goal in HBAR, else 0. */
  function MergedGoal(chain: Option<ChainCampaign>, meta: Option<Metadata>): JsValue {
    if !MetaGoal(meta).Undefined? then MetaGoal(meta)
    else if chain.Some? then Num(chain.value.goalHBAR as real / GoalUnitsPerHbar as real)
    else Num(0.0)
  }

  /** `campaignObj`: the fallback record's fields overwritten field by field. */
  function Merge(found: Option<Campaign>, chain: Option<ChainCampaign>, meta: Option<Metadata>,
                 numericId: int, amountRaised: JsValue): (r: Campaign)
    // the canonical id
    ensures r.id == Num(numericId as real) && r.onchainId == r.id
    // text fields: metadata, then chain, then fallback, each by truthiness
    ensures Truthy(MetaTitle(meta)) ==> r.title == MetaTitle(meta)
    ensures !Truthy(MetaTitle(meta)) && Truthy(ChainTitle(chain)) ==> r.title == ChainTitle(chain)
    ensures !Truthy(MetaTitle(meta)) && !Truthy(ChainTitle(chain)) ==> r.title == FoundTitle(found)
    ensures Truthy(MetaDescription(meta)) ==> r.description == MetaDescription(meta)
    ensures !Truthy(MetaDescription(meta)) && Truthy(ChainDescription(chain)) ==> r.description == ChainDescription(chain)
    ensures !Truthy(MetaDescription(meta)) && !Truthy(ChainDescription(chain)) ==> r.description == FoundDescription(found)
    ensures Truthy(MetaImage(meta)) ==> r.image == MetaImage(meta)
    ensures !Truthy(MetaImage(meta)) && Truthy(ChainImage(chain)) ==> r.image == ChainImage(chain)
    ensures !Truthy(MetaImage(meta)) && !Truthy(ChainImage(chain)) ==> r.image == FoundImage(found)
    // the goal never comes from the fallback record
    ensures r.goal == MergedGoal(chain, meta)
    // owner wallet only from the chain, organisation name only from the fallback
    ensures r.ngoWallet == (if chain.Some? then chain.value.ngo else Undefined)
    ensures r.ngoName == (if found.Some? then found.value.ngoName else Undefined)
    // active: the chain flag, true when the chain says nothing
    ensures chain.None? ==> r.active == Bool(true)
    ensures chain.Some? && (chain.value.active.Undefined? || chain.value.active.Null?) ==> r.active == Bool(true)
    ensures chain.Some? && !chain.value.active.Undefined? && !chain.value.active.Null? ==> r.active == chain.value.active
    // raised amount and percentage come from the same value
    ensures r.amountRaised == amountRaised
    ensures r.percentage == Percentage(amountRaised, Or(r.goal, Num(0.0)))
    // fields the page does not overwrite keep the fallback's values
    ensures found.Some? ==> r.walletAddress == found.value.walletAddress && r.target == found.value.target
    ensures found.None? ==> r.walletAddress == Undefined && r.target == Undefined
  {
    var base := if found.Some? then found.value else NoFields;
    var goal := MergedGoal(chain, meta);
    base.(
      id := Num(numericId as real),
      onchainId := Num(numericId as real),
      title := Or(MetaTitle(meta), Or(ChainTitle(chain), FoundTitle(found))),
      description := Or(MetaDescription(meta), Or(ChainDescription(chain), FoundDescription(found))),
      goal := goal,
      ngoWallet := if chain.Some? then chain.value.ngo else Undefined,
      image := Or(MetaImage(meta), Or(ChainImage(chain), FoundImage(found))),
      amountRaised := amountRaised,
      percentage := Percentage(amountRaised, Or(goal, Num(0.0))),
      ngoName := if found.Some? then found.value.ngoName else Undefined,
      active := Coalesce(if chain.Some? then chain.value.active else Undefined, Bool(true)))
  }

  /** Whatever the fallback record holds, the merged goal and percentage are
      the same: a goal cached in the fallback never survives the merge. */
  lemma GoalIgnoresFallback(f1: Option<Campaign>, f2: Option<Campaign>, chain: Option<ChainCampaign>,
                            meta: Option<Metadata>, numericId: int, raised: JsValue)
    ensures Merge(f1, chain, meta, numericId, raised).goal == Merge(f2, chain, meta, numericId, raised).goal
    ensures Merge(f1, chain, meta, numericId, raised).percentage == Merge(f2, chain, meta, numericId, raised).percentage
  {
  }

  // ---------------------------------------------------------------------
  // Loading the page

  /** How the chain read went: it threw, or it answered with a record or with nothing. */
  datatype ChainRead = ChainThrew | ChainAnswered(record: Option<ChainCampaign>)

  /** The outcomes of the remote reads `loadCampaign` makes. `firebase` is
      None when `getAllCampaigns` threw; `metadata` is None when the CID
      lookup threw or gave nothing, or the fetch or its JSON parse failed;
      `donations` is None when `getDonationsByCampaign` threw, and otherwise
      its `totalRaisedHBAR`. */
  datatype Sources = Sources(firebase: Option<seq<Campaign>>, defaults: seq<Campaign>, chain: ChainRead,
                             metadata: Option<Metadata>, donations: Option<JsValue>)

  /** What `loadCampaign` stores: the campaign (None for null or undefined)
      and the campaigns offered as related. */
  datatype PageData = PageData(campaign: Option<Campaign>, related: seq<Campaign>)

  /** `BigInt(id || '0')`: the id the chain reads use; None when it throws. */
  function ChainNumber(routeId: Option<string>): Option<int> {
    ParseBigInt(RouteText(routeId, "0"))
  }

  /** The raised amount before the total is read: `found?.amountRaised || 0`. */
  function FallbackRaised(found: Option<Campaign>): JsValue {
    Or(if found.Some? then found.value.amountRaised else Undefined, Num(0.0))
  }

  function LoadCampaign(routeId: Option<string>, src: Sources): (r: PageData)
    // the Firebase read failing shows nothing at all
    ensures src.firebase.None? ==> r == PageData(None, [])
    ensures src.firebase.Some? ==>
      var fallback := src.firebase.value + src.defaults;
      var found := Found(fallback, routeId);
      && r.related == OtherCampaigns(fallback, routeId)
      // an unparsable id or a failing chain read shows the fallback record as stored
      && (ChainNumber(routeId).None? || src.chain.ChainThrew? ==> r.campaign == found)
      // the chain answering without a record, with no metadata, is "not found",
      // whether or not a fallback record matched
      && (ChainNumber(routeId).Some? && src.chain == ChainAnswered(None) && src.metadata.None? ==> r.campaign.None?)
      // otherwise the merged view, whose raised amount is the total read
      // back or the fallback's, and whose percentage derives from it
      && (ChainNumber(routeId).Some? && src.chain.ChainAnswered? && (src.chain.record.Some? || src.metadata.Some?) ==>
            && r.campaign.Some?
            && r.campaign.value == Merge(found, src.chain.record, src.metadata, ChainNumber(routeId).value,
                                         if src.donations.Some? then src.donations.value else FallbackRaised(found))
            && r.campaign.value.id == Num(ChainNumber(routeId).value as real))
  {
    match src.firebase
    case None => PageData(None, [])
    case Some(firebase) =>
      var fallback := firebase + src.defaults;
      var found := Found(fallback, routeId);
      var related := OtherCampaigns(fallback, routeId);
      var numericId := ChainNumber(routeId);
      if numericId.None? || src.chain.ChainThrew? then PageData(found, related)
      else if src.chain.record.None? && src.metadata.None? then PageData(None, related)
      else
        var raised := match src.donations
                      case Some(total) => total
                      case None => FallbackRaised(found);
        PageData(Some(Merge(found, src.chain.record, src.metadata, numericId.value, raised)), related)
  }

  /** A view that is shown always has a percentage derived from its own
      raised amount and goal, never one taken from a source record. */
  lemma ShownViewPercentageIsDerived(routeId: Option<string>, src: Sources)
    requires LoadCampaign(routeId, src).campaign.Some?
    requires ChainNumber(routeId).Some? && src.chain.ChainAnswered?
    ensures var v := LoadCampaign(routeId, src).campaign.value;
            v.percentage == Percentage(v.amountRaised, Or(v.goal, Num(0.0)))
  {
    assert src.firebase.Some?;
    assert src.chain.record.Some? || src.metadata.Some?;
    var found := Found(src.firebase.value + src.defaults, routeId);
    var raised := if src.donations.Some? then src.donations.value else FallbackRaised(found);
    var v := Merge(found, src.chain.record, src.metadata, ChainNumber(routeId).value, raised);
    assert LoadCampaign(routeId, src).campaign == Some(v);
  }

  // ---------------------------------------------------------------------
  // Ownership and the donate form

  /** `field?.toLowerCase() === address.toLowerCase()` for a wallet field. */
  predicate SameWallet(field: JsValue, address: string) {
    field.Str? && SameIgnoringCase(field.s, address)
  }

  /** `campaign && address && isConnected` and then a case-insensitive
      match against the chain owner or the stored creator wallet. */
  function IsCampaignCreator(campaign: Option<Campaign>, address: Option<string>, isConnected: bool): (r: bool)
    // nobody owns a missing campaign, and a blank or disconnected wallet owns nothing
    ensures r ==> campaign.Some? && address.Some? && address.value != "" && isConnected
    // an owner's address is one of the two wallet fields, up to letter case
    ensures r ==> exists w :: w in {campaign.value.ngoWallet, campaign.value.walletAddress} && w.Str? && Lower(w.s) == Lower(address.value)
    // the address a wallet field holds, letter for letter, owns the campaign when connected
    ensures campaign.Some? && address.Some? && address.value != "" && isConnected ==>
              (campaign.value.ngoWallet == Str(address.value) || campaign.value.walletAddress == Str(address.value) ==> r)
    // and so does any wallet field equal to the address up to letter case
    ensures campaign.Some? && address.Some? && address.value != "" && isConnected ==>
              ((exists w :: w in {campaign.value.ngoWallet, campaign.value.walletAddress} && w.Str? && Lower(w.s) == Lower(address.value)) ==> r)
  {
    if campaign.Some? && address.Some? && address.value != "" && isConnected then
      SameWallet(campaign.value.ngoWallet, address.value) || SameWallet(campaign.value.walletAddress, address.value)
    else false
  }

  /** A stored wallet written in mixed case is owned by the same address in
      lower case. */
  lemma MixedCaseWalletOwns()
    ensures IsCampaignCreator(Some(NoFields.(ngoWallet := Str("0xAb"))), Some("0xab"), true)
  {
    var w := Str("0xAb");
    assert Lower(w.s) == Lower("0xab") by {
      assert Lower(w.s) == [LowerChar('0'), LowerChar('x'), LowerChar('A'), LowerChar('b')];
    }
    assert w in {w, NoFields.walletAddress};
  }

  /** Ownership does not depend on the letter case of the connected address. */
  lemma {:induction false} CreatorIgnoresCase(campaign: Option<Campaign>, address: string, isConnected: bool)
    ensures IsCampaignCreator(campaign, Some(Upper(address)), isConnected) == IsCampaignCreator(campaign, Some(address), isConnected)
    ensures IsCampaignCreator(campaign, Some(Lower(address)), isConnected) == IsCampaignCreator(campaign, Some(address), isConnected)
  {
    LowerOfUpper(address);
    LowerIdempotent(address);
  }

  /** The chain's owner wallet makes the connected owner the creator of the
      merged view, whatever the metadata says. */
  lemma ChainOwnerIsCreator(found: Option<Campaign>, chain: ChainCampaign, meta: Option<Metadata>,
                            numericId: int, raised: JsValue, address: string)
    requires chain.ngo.Str? && SameIgnoringCase(chain.ngo.s, address) && address != ""
    ensures IsCampaignCreator(Some(Merge(found, Some(chain), meta, numericId, raised)), Some(address), true)
  {
  }

  /** The creator wallet of the fallback record survives the merge and also
      grants ownership, even when the chain names another owner. */
  lemma FallbackWalletGrantsOwnership(found: Campaign, chain: Option<ChainCampaign>, meta: Option<Metadata>,
                                      numericId: int, raised: JsValue, address: string)
    requires found.walletAddress.Str? && SameIgnoringCase(found.walletAddress.s, address) && address != ""
    ensures IsCampaignCreator(Some(Merge(Some(found), chain, meta, numericId, raised)), Some(address), true)
  {
  }

  /** The metadata has no say in ownership. */
  lemma OwnershipIgnoresMetadata(found: Option<Campaign>, chain: Option<ChainCampaign>, m1: Option<Metadata>,
                                 m2: Option<Metadata>, numericId: int, raised: JsValue,
                                 address: Option<string>, isConnected: bool)
    ensures IsCampaignCreator(Some(Merge(found, chain, m1, numericId, raised)), address, isConnected)
         == IsCampaignCreator(Some(Merge(found, chain, m2, numericId, raised)), address, isConnected)
  {
  }

  /** The donate button is enabled: some non-blank amount, a connected
      wallet, no donation in progress, and a campaign not marked inactive. */
  function DonateButtonEnabled(amount: string, isConnected: bool, isDonating: bool, campaign: Campaign): (r: bool)
    // the button asks for everything the amount field does, and a non-blank amount besides
    ensures r <==> AmountInputEnabled(isConnected, isDonating, campaign) && Trim(amount) != ""
  {
    Trim(amount) != "" && isConnected && !isDonating && campaign.active != Bool(false)
  }

  /** The amount field is enabled under the same conditions, blank or not. */
  function AmountInputEnabled(isConnected: bool, isDonating: bool, campaign: Campaign): (r: bool)
    // only an explicit `false` marks a campaign inactive
    ensures campaign.active == Bool(false) ==> !r
    // any other value, missing, truthy or falsy, leaves it to the wallet and the donation in progress
    ensures campaign.active != Bool(false) ==> (r <==> isConnected && !isDonating)
    ensures !isConnected || isDonating ==> !r
  {
    isConnected && !isDonating && campaign.active != Bool(false)
  }

  /** On a merged view, a connected wallet with no donation in progress can
      donate unless the chain says outright that the campaign is inactive. */
  lemma DonatingClosedOnlyByChain(found: Option<Campaign>, chain: Option<ChainCampaign>, meta: Option<Metadata>,
                                  numericId: int, raised: JsValue)
    ensures AmountInputEnabled(true, false, Merge(found, chain, meta, numericId, raised))
        <==> !(chain.Some? && chain.value.active == Bool(false))
  {
  }
}
