# DonateOnChain core, modelled in Dafny

This project models the decision logic of DonateOnChain, a donation dApp whose
campaigns live on the Hedera chain. It covers three places in the source:

- **The campaign details page** (`CampaignDetails.tsx`):
  - how `loadCampaign` finds a fallback record by a loosely typed route id;
  - how it merges the fallback record, the chain record, the IPFS metadata
    and the donation total into the view it shows;
  - when it shows "not found" instead;
  - the ownership check;
  - the donate button's enabling conditions;
  - the related-campaigns list;
  - `handleDonate` as a state machine over the page's state.
- **The home page** (`Home.tsx`):
  - the five-minute `localStorage` cache;
  - the design feed: validity filter, de-duplication through a JS `Map`,
    newest-first sort, top five, padding with catalogue products;
  - the popular campaigns, shown from the cache first;
  - the "Get started" routing.
- **The token setup script** (`configure-token-permissions.js`):
  - the environment checks;
  - the private-key format dispatch;
  - the conversion of a Solidity address to a Hedera `0.0.N` token id;
  - the supply-key update decision, and the script as a whole as a trace of
    SDK steps.

JavaScript values are modelled explicitly, because the source leans on
JavaScript's rules:

- `JsValues` defines `JsValue` (`undefined`, `null`, booleans, numbers as
  exact reals, `NaN`, strings), truthiness, `||` and `??`, `trim` and ASCII
  case mapping.
- `JsNumbers` defines `parseInt`, `parseFloat`, `BigInt(string)`, `Number(...)`
  and decimal/hex printing as concrete parsers, with lemmas about them.

The remaining modules follow the source:

- `CampaignView` holds the pure parts of the campaign page: lookup, merge,
  loading, ownership and enabling.
- `Donation` holds `handleDonate`:
  - the pure specification is `Donate` / `HandleDonateRun`;
  - the class `DonationForm` has one method per state update;
  - `HandleDonate` is proved against `HandleDonateRun`.
- `Ordering` is the stable newest-first sort that `Array.prototype.sort`
  performs on `createdAt`.
- `DesignFeed` is the design pipeline.
- `HomePage` contains:
  - the cache functions;
  - the class `LocalStore` over a key-to-entry map;
  - the class `Home`, whose `LoadData` sets `popularDesigns`,
    `popularCampaigns` and `isLoading`;
  - the popular-campaign list;
  - `GetStartedRoute`.
- `TokenSetup` is the setup script.

Every remote call is an input:

- the Firebase list;
- the chain record, or the fact that the read threw;
- the metadata;
- the donation total;
- the transfer receipt;
- the roles answer;
- the SDK's answers.

The clock is a parameter (`now`, `readTime`, `writeTime`). Timers are
explicit expire methods.

In a few places the code does something other than what one would read from
its surrounding prose, and the model follows the code:

- `loadCampaign` shows "not found" when the chain answers without a record
  and no metadata loaded, even if a fallback record matched.
- `handleDonate` has no in-flight guard. Only the disabled button keeps a
  second submission out.
- When the read-back of the donation total fails after a successful
  transfer:
  - `donationSuccess` stays true and the error message is set too;
  - only the error timer is scheduled, so the success flag and the
    transaction hash are never cleared by a timer.
- When the donation-total read fails at load, the merged view falls back to
  the fallback record's `amountRaised || 0`, not to an earlier view.
- After a donation the percentage is recomputed from `goal || target || 0`.
  At load it is computed from `goal || 0` only.

## Model

| member | source | states |
|---|---|---|
| CampaignView.FirstMatch | frontend/src/pages/CampaignDetails.tsx:40-45 | `find` returns the first index whose record matches the route key, and no earlier record matches |
| CampaignView.FirebaseShadowsDefaults | frontend/src/pages/CampaignDetails.tsx:39-45 | a matching Firebase record always wins over the default list; otherwise the first matching default is found, offset past the Firebase list |
| CampaignView.MissingRouteId | frontend/src/pages/CampaignDetails.tsx:41-44 | with no route id the lookup uses `parseInt('1')`, and a record matches iff its id or onchainId is 1, undefined or null |
| CampaignView.DefaultLookupNumber | frontend/src/pages/CampaignDetails.tsx:41 | `parseInt(id \|\| '1')` with no id is 1 |
| CampaignView.NumericAndTextIdsBothMatch | frontend/src/pages/CampaignDetails.tsx:41-42 | a record whose id is the number n or the text of n matches the route id that prints n |
| CampaignView.OtherCampaigns | frontend/src/pages/CampaignDetails.tsx:71 | the related list holds exactly the fallback records whose id is neither `parseInt(id)` nor the id text, and is no longer than the list |
| CampaignView.OtherCampaignsOfAppend | frontend/src/pages/CampaignDetails.tsx:71 | `filter` keeps order and repeats: filtering a concatenation is filtering each part and concatenating |
| CampaignView.OtherCampaignsOfOne | frontend/src/pages/CampaignDetails.tsx:71 | a single record is kept, as itself, exactly when its id is not the route's |
| CampaignView.RelatedShown | frontend/src/pages/CampaignDetails.tsx:374 | at most five related campaigns are shown: a prefix that is the whole list when it is shorter |
| CampaignView.FoundByOnchainIdStaysRelated | frontend/src/pages/CampaignDetails.tsx:43-44 | a record found through its onchainId but with a different id is both shown and listed as related |
| CampaignView.PercentageOfGoal | frontend/src/pages/CampaignDetails.tsx:92-93 | the percentage is raised / goal * 100 when the goal is a positive number, else 0 |
| CampaignView.Percentage | frontend/src/pages/CampaignDetails.tsx:92-93 | a goal that is not a positive number gives 0; with a positive goal a raised amount that is no number gives NaN, and a numeric one gives its share of the goal in percent |
| CampaignView.Share | frontend/src/pages/CampaignDetails.tsx:93 | the share times the goal is 100 times the amount raised |
| CampaignView.ShareReachesWhole | frontend/src/pages/CampaignDetails.tsx:93 | the percentage is not clamped: it reaches 100 exactly when raised reaches the goal, and goes beyond it |
| CampaignView.PercentageExamples | frontend/src/pages/CampaignDetails.tsx:92-93 | 50 of 200 is 25%, 300 of 200 is 150%, and a zero goal gives 0 |
| CampaignView.Merge | frontend/src/pages/CampaignDetails.tsx:78-93 | field precedence: title, description and image come from metadata, then chain, then fallback, by truthiness; goal from the metadata when defined, else chain goalHBAR/10^18, else 0; ngoWallet only from the chain; ngoName only from the fallback; active is the chain's flag unless that is missing, null or undefined, in which case it is true; id = onchainId = the numeric id; walletAddress and target survive from the fallback |
| CampaignView.GoalIgnoresFallback | frontend/src/pages/CampaignDetails.tsx:78-84 | the fallback's goal never reaches the view: the goal and percentage do not depend on the fallback record |
| CampaignView.LoadCampaign | frontend/src/pages/CampaignDetails.tsx:35-107 | a Firebase failure shows nothing; an unparsable id or a throwing chain read shows the fallback as stored; a chain answer without a record and without metadata is "not found"; otherwise the merged view with the donation total, or the fallback's amountRaised, or 0 |
| CampaignView.ShownViewPercentageIsDerived | frontend/src/pages/CampaignDetails.tsx:92-93 | a merged view's percentage is derived from its own amountRaised and goal |
| CampaignView.CreatorIgnoresCase | frontend/src/pages/CampaignDetails.tsx:112-113 | ownership compares addresses case-insensitively |
| CampaignView.ChainOwnerIsCreator | frontend/src/pages/CampaignDetails.tsx:110-114 | a connected wallet equal to the chain record's ngo owns the merged view |
| CampaignView.FallbackWalletGrantsOwnership | frontend/src/pages/CampaignDetails.tsx:110-114 | a connected wallet equal to the fallback record's walletAddress owns the merged view |
| CampaignView.OwnershipIgnoresMetadata | frontend/src/pages/CampaignDetails.tsx:110-119 | ownership of a merged view does not depend on the IPFS metadata |
| CampaignView.IsCampaignCreator | frontend/src/pages/CampaignDetails.tsx:110-119 | only a connected, non-empty address owns an existing campaign; an owner's address equals the chain owner or the creator wallet up to letter case; conversely, a connected non-empty address owns the campaign whenever either wallet field equals it up to letter case |
| CampaignView.MixedCaseWalletOwns | frontend/src/pages/CampaignDetails.tsx:110-111 | a stored wallet `0xAb` is owned by the connected address `0xab` |
| CampaignView.AmountInputEnabled | frontend/src/pages/CampaignDetails.tsx:310 | the amount field is disabled when the campaign is explicitly inactive (`active === false`); for every other value of `active`, missing, truthy or falsy, it is enabled exactly when a wallet is connected and no donation is in progress |
| CampaignView.DonateButtonEnabled | frontend/src/pages/CampaignDetails.tsx:322 | the button is enabled exactly when the amount field is and the trimmed amount is non-empty |
| CampaignView.DonatingClosedOnlyByChain | frontend/src/pages/CampaignDetails.tsx:310 | on a merged view, a connected wallet not donating can type an amount unless the chain says outright that the campaign is inactive |
| Donation.CheckAmount | frontend/src/pages/CampaignDetails.tsx:142-147 | a blank amount or no wallet is ignored; the amount is accepted iff `parseFloat` reads a positive number, and the accepted value is that number; anything else is invalid |
| Donation.UnreadableAmountRejected | frontend/src/pages/CampaignDetails.tsx:143-146 | "abc" sets the invalid-amount message |
| Donation.LeadingNumberAccepted | frontend/src/pages/CampaignDetails.tsx:143 | a numeric prefix followed by other text is accepted as that number |
| Donation.BlankAmountIgnored | frontend/src/pages/CampaignDetails.tsx:142 | whitespace only, or a disconnected wallet, does nothing |
| Donation.EnabledButtonIsNeverIgnored | frontend/src/pages/CampaignDetails.tsx:142-322 | whenever the button is enabled, a click is not silently ignored |
| Donation.ToBigInt | frontend/src/pages/CampaignDetails.tsx:155 | a number converts iff it is an integer, to itself; a string iff `BigInt` parses it; `true` converts to 1; a failure carries the runtime's message |
| Donation.TransferCampaignId | frontend/src/pages/CampaignDetails.tsx:155 | the transfer target is the first truthy of onchainId and id, converted; with neither, the route's campaign number, failing when it has none |
| Donation.MergedViewDonatesToRouteCampaign | frontend/src/pages/CampaignDetails.tsx:155 | a merged view donates to the campaign its route names |
| Donation.WordRouteHasNoChainNumber | frontend/src/pages/CampaignDetails.tsx:48 | a route id starting with a letter has no BigInt value |
| Donation.FallbackRouteDiffers | frontend/src/pages/CampaignDetails.tsx:155-161 | a fallback view found by a word route donates to its onchainId, while the read-back of the route id throws |
| Donation.ErrorText | frontend/src/pages/CampaignDetails.tsx:179 | the error shown is never empty: the thrown message when it has one, else "Donation failed. Please try again." |
| Donation.Refreshed | frontend/src/pages/CampaignDetails.tsx:163-171 | the read-back changes only amountRaised and percentage; the percentage is of the goal, else of the target, else 0 |
| Donation.Donate | frontend/src/pages/CampaignDetails.tsx:141-186 | ignored and invalid amounts issue no call; an accepted one makes at most one transfer, first, to the decided target; the total is read back only after it, for the route id; a transfer sets success, the hash and the cleared amount; the success timer only when the read-back succeeds; otherwise an error timer and the message of the step that threw (target, transfer, route conversion or total), with no success, no hash and the amount kept when the transfer did not go through; isDonating always ends false; once the target is decided the transfer is always made, a transfer that goes through is always followed by the read-back when the route has a number, and when every answer is Ok the run ends with the campaign refreshed, the amount cleared, success and the hash shown, no error and only the success timer |
| Donation.DonateKeepsConsistent | frontend/src/pages/CampaignDetails.tsx:149-185 | the form invariant holds after every run |
| Donation.ReadBackFailureAfterTransfer | frontend/src/pages/CampaignDetails.tsx:157-182 | a read-back failure after a transfer leaves success set beside the error and the campaign unchanged |
| Donation.MergedViewDonation | frontend/src/pages/CampaignDetails.tsx:154-176 | the full successful run on a merged view: the transfer, then the read-back, then the refreshed campaign and the success timer |
| Donation.RefreshAgreesWithLoadWhenGoalSet | frontend/src/pages/CampaignDetails.tsx:163-171 | with a truthy goal, the refresh computes the percentage as loading does |
| Donation.RefreshFallsBackToTarget | frontend/src/pages/CampaignDetails.tsx:163-165 | with goal 0 and target 200, the refresh shows 25% where loading shows 0% |
| Donation.DonationForm.constructor | frontend/src/pages/CampaignDetails.tsx:20-30 | the initial state: empty amount, no flags, no error, no hash |
| Donation.DonationForm.Type | frontend/src/pages/CampaignDetails.tsx:20 | typing changes only the amount |
| Donation.DonationForm.Begin | frontend/src/pages/CampaignDetails.tsx:149-152 | submitting sets isDonating and resets error, success and hash; the button is then disabled |
| Donation.DonationForm.RecordTransfer | frontend/src/pages/CampaignDetails.tsx:157-159 | a receipt sets the hash and success and clears the amount |
| Donation.DonationForm.ApplyTotal | frontend/src/pages/CampaignDetails.tsx:163-171 | the read-back replaces amountRaised and percentage only |
| Donation.DonationForm.Fail | frontend/src/pages/CampaignDetails.tsx:179 | a failure sets the error text only |
| Donation.DonationForm.Settle | frontend/src/pages/CampaignDetails.tsx:184 | `finally` clears isDonating only |
| Donation.DonationForm.ExpireSuccess | frontend/src/pages/CampaignDetails.tsx:173-176 | the success timer clears success and hash only |
| Donation.DonationForm.ExpireError | frontend/src/pages/CampaignDetails.tsx:180-182 | the error timer clears the error only |
| Donation.DonationForm.HandleDonate | frontend/src/pages/CampaignDetails.tsx:141-186 | the step-by-step state updates end in exactly the state, calls and timers of the specification run |
| Donation.DonationForm.Respond | frontend/src/pages/CampaignDetails.tsx:148-185 | the steps after validation end in the state, calls and timers of `Donate` |
| Ordering.InsertPosition | frontend/src/pages/Home.tsx:76-77 | insertion goes after every strictly newer element and before the first element that is not newer |
| Ordering.InsertPermutes | frontend/src/pages/Home.tsx:76-77 | inserting adds exactly one element |
| Ordering.InsertKeepsOrder | frontend/src/pages/Home.tsx:76-77 | inserting into a newest-first list keeps it newest-first |
| Ordering.SortNewestFirst | frontend/src/pages/Home.tsx:76-77 | the sort is newest-first and a permutation of its input |
| Ordering.SortIsStable | frontend/src/pages/Home.tsx:76-77 | elements with equal `createdAt` keep their relative order |
| Ordering.SortKeepsSorted | frontend/src/pages/Home.tsx:76-77 | an already newest-first list is left as it is |
| Ordering.Newest | frontend/src/pages/Home.tsx:76-80 | `sorted.slice(0, n)`: min(n, length) items, newest first, a prefix of the sort, drawn from the list, and no left-out item newer than the last one kept |
| DesignFeed.ValidDesigns | frontend/src/pages/Home.tsx:54-63 | a design is kept iff it is present and its id and pieceName are truthy; the result is no longer than the list |
| DesignFeed.ValidDesignsOfAppend | frontend/src/pages/Home.tsx:54-63 | `filter` keeps order and repeats: filtering a concatenation is filtering each part and concatenating |
| DesignFeed.ValidDesignsOfOne | frontend/src/pages/Home.tsx:54 | a single entry is kept, as its design, exactly when it is listed |
| DesignFeed.FirstIndex | frontend/src/pages/Home.tsx:69-71 | the first position holding an id, or the length when there is none |
| DesignFeed.LastWithId | frontend/src/pages/Home.tsx:69-71 | a design holding the id exists iff the id occurs, and the one returned has no later design with that id |
| DesignFeed.Put | frontend/src/pages/Home.tsx:70 | `map.set`: a new key goes last, a known key keeps its place and takes the new value |
| DesignFeed.Values | frontend/src/pages/Home.tsx:69-71 | `map.values()` lists one design per key, in key order, each carrying its key as id: the ids are distinct and are exactly the keys |
| DesignFeed.Build | frontend/src/pages/Home.tsx:69-70 | the map has one key for every id that occurs |
| DesignFeed.BuildKeepsLast | frontend/src/pages/Home.tsx:69-70 | every key maps to the last design with that id |
| DesignFeed.BuildKeysInFirstOrder | frontend/src/pages/Home.tsx:69-70 | keys are ordered by their first occurrence |
| DesignFeed.DedupeSpec | frontend/src/pages/Home.tsx:66-71 | de-duplication leaves one design per id and every id; each holds the last design with that id, at the position where the id first occurred |
| DesignFeed.Dedupe | frontend/src/pages/Home.tsx:66-71 | de-duplication leaves distinct ids, and exactly the ids of its input |
| DesignFeed.DedupeOfDistinct | frontend/src/pages/Home.tsx:69-71 | de-duplication leaves a list with distinct ids unchanged |
| DesignFeed.PopularCards | frontend/src/pages/Home.tsx:80-85 | min(5, designs + products) cards: the sorted designs first, each as itself, then products in order |
| DesignFeed.LoadDesigns | frontend/src/pages/Home.tsx:47-111 | no feed is set iff a local list cannot be read (which cards are shown is stated by `FeedShowsNewestListedDesigns`) |
| DesignFeed.DesignPool | frontend/src/pages/Home.tsx:54-99 | the designs chosen from are listed ones; after a Firebase read they have distinct ids, exactly those of the three filtered lists; without it, they are the filtered local lists, repeats kept |
| DesignFeed.FeedShowsNewestListedDesigns | frontend/src/pages/Home.tsx:54-87 | `FeedCards`: the feed shows `Newest(pool, 5)` as its first cards, in order (so min(5, pool) listed designs, newest first, with no left-out design newer than one shown), then products in order, min(5, shown + products) cards in all |
| DesignFeed.FirebaseFeedIdsDistinct | frontend/src/pages/Home.tsx:66-87 | after a Firebase read, no design id appears twice in the feed |
| DesignFeed.SortKeepsDistinctIds | frontend/src/pages/Home.tsx:76-77 | sorting keeps ids distinct |
| DesignFeed.LocalOnlyFeedRepeats | frontend/src/pages/Home.tsx:92-110 | on Firebase failure there is no de-duplication: a design in both local lists appears twice |
| DesignFeed.LocalCopyReplacesFirebase | frontend/src/pages/Home.tsx:66-71 | a local design with a Firebase design's id replaces it |
| HomePage.CacheRoundTrip | frontend/src/pages/Home.tsx:19-36 | after `setCache(k, d)` at time t, `getCache(k)` at time now returns the stored data iff d is truthy, t is non-zero and now - t <= 300000; other keys are unaffected |
| HomePage.TtlBoundary | frontend/src/pages/Home.tsx:27 | an entry exactly 300000 ms old is still returned; one ms later it is not |
| HomePage.NonNumericTimestampNeverExpires | frontend/src/pages/Home.tsx:26-27 | a truthy timestamp that is not a number never expires, since the age is NaN |
| HomePage.WordIsNaN | frontend/src/pages/Home.tsx:27 | a word timestamp such as "soon" converts to NaN |
| HomePage.Lookup | frontend/src/pages/Home.tsx:19-30 | `getCache` returns the stored data iff the record parsed, its data and timestamp are truthy and it is not older than the TTL; what it returns is truthy |
| HomePage.Stamp | frontend/src/pages/Home.tsx:32-36 | `setCache` writes a record that is fresh at the time written, whose stamp is truthy iff the time is not 0, and whose data is truthy iff the written data is |
| HomePage.Serialized | frontend/src/pages/Home.tsx:34 | the JSON round trip keeps truthiness, the kind of data and the list length |
| HomePage.SerializedWithoutNaN | frontend/src/pages/Home.tsx:34 | data holding no NaN is stored and read back unchanged |
| HomePage.LocalStore.constructor | frontend/src/pages/Home.tsx:21-22 | the store starts with the given entries |
| HomePage.LocalStore.Get | frontend/src/pages/Home.tsx:21-30 | a result exists only for a parsed entry with truthy data, and is that data |
| HomePage.LocalStore.Set | frontend/src/pages/Home.tsx:32-36 | a writable store records the key with the current time and the serialized data; a failing write changes nothing |
| HomePage.TopCampaigns | frontend/src/pages/Home.tsx:121-123 | min(5, n) campaigns, newest first, taken from the list, with no left-out campaign newer than the last one kept |
| HomePage.CampaignFrames | frontend/src/pages/Home.tsx:115-128 | a cached list is shown first; the last list shown is the chain's top five, or empty when the chain read throws |
| HomePage.ChainFailureHidesCache | frontend/src/pages/Home.tsx:117-128 | a chain failure replaces the shown cached list with an empty one |
| HomePage.NextVisitShowsCachedTop | frontend/src/pages/Home.tsx:116-125 | within the TTL, the next visit first shows the top five written back last time |
| HomePage.Home.constructor | frontend/src/pages/Home.tsx:41-45 | no designs, no campaigns, loading |
| HomePage.Home.LoadData | frontend/src/pages/Home.tsx:47-134 | the designs become the feed of `LoadDesigns`; the campaigns pass through the frames of `CampaignFrames`; the cache is written as `setCache` does; loading ends; an unreadable local list aborts before anything else |
| HomePage.Home.LoadPopularCampaigns | frontend/src/pages/Home.tsx:114-129 | the shown lists are `CampaignFrames` of the cache and the chain's answer; the top five are written back only on success |
| HomePage.GetStartedRoute | frontend/src/pages/Home.tsx:138-149 | roles are asked only with a connected address; the route is /create-design iff the answer says designer, else /become-a-designer |
| TokenSetup.ReadEnv | setup/configure-token-permissions.js:14-30 | the checks run in order: credentials, then token id, then ProofNFT, each with its own message; the network defaults to "testnet" |
| TokenSetup.IndexOf | setup/configure-token-permissions.js:42 | the position found holds the pattern and no earlier position does; none is found only when the pattern occurs nowhere; a text starting with the pattern gives 0 |
| TokenSetup.KeyRequestFor | setup/configure-token-permissions.js:41-45 | a key starting with `0x` is parsed as ECDSA without that prefix; any other key is parsed as given |
| TokenSetup.EcdsaKeepsLaterPrefix | setup/configure-token-permissions.js:42 | only the first `0x` is removed |
| TokenSetup.TokenIdText | setup/configure-token-permissions.js:60-74 | ids without `0x` pass unchanged; a `0x` id throws "Invalid Solidity address format" iff its length is not 42; a converted id starts with `0.0.` |
| TokenSetup.ReadDecimalOf | setup/configure-token-permissions.js:67 | a digit run followed by a non-digit reads as its value |
| TokenSetup.ParseDotted | setup/configure-token-permissions.js:67 | `a.b.c` in digits reads back as shard a, realm b, number c |
| TokenSetup.EntityTextParses | setup/configure-token-permissions.js:67 | the text `0.0.N` reads back as entity 0.0.N |
| TokenSetup.ConvertAddress | setup/configure-token-permissions.js:63-67 | a valid address maps to `0.0.N`, with N the value of its last ten hex digits, N < 16^10, and shard and realm 0 |
| TokenSetup.AddressRoundTrip | setup/configure-token-permissions.js:63-67 | for N < 16^10, `0x`, 30 zeros and N in ten hex digits converts back to `0.0.N` |
| TokenSetup.ConversionIgnoresCase | setup/configure-token-permissions.js:63 | upper-case hex digits convert as lower-case ones do |
| TokenSetup.NonHexTailIsNaN | setup/configure-token-permissions.js:65-67 | a tail whose first character is not a hex digit converts to `0.0.NaN` |
| TokenSetup.UpperPrefixNotConverted | setup/configure-token-permissions.js:62-73 | `0X` is not a Solidity address: the id is passed on as it is |
| TokenSetup.NeedsUpdate | setup/configure-token-permissions.js:95-97 | an update is needed iff there is no supply key, its DER text is empty, or it differs from the operator's |
| TokenSetup.NoSupplyKeyNeedsUpdate | setup/configure-token-permissions.js:97 | a token without a supply key always needs one |
| TokenSetup.UpdateToken | setup/configure-token-permissions.js:67-136 | the token id text is resolved first and a resolved token is queried next; once the supply key is known, the operator's key is sent exactly when `needsUpdate` holds; the run ends Ok(false) when it does not and Ok(true) when the update's receipt is a success; a failed receipt throws "Token update failed with status: …"; the client is closed last; a throwing `fromString` ends after resolving and closing, a throwing token query after querying and closing, and a throwing update ends the run with that error; an update goes only to the resolved token |
| TokenSetup.ConfigureToken | setup/configure-token-permissions.js:60-137 | the client is always closed last; a readable token id is resolved first and the token queried next; once the supply key is known, the operator's key is sent iff `needsUpdate` holds, the run ends Ok(false) when it does not and Ok(true) when the update succeeds; an update is sent only when needed; the result is true iff an update was sent and succeeded; a failed receipt throws "Token update failed with status: …"; a malformed `0x` id ends the run at once with "Invalid Solidity address format: …" and nothing sent; an update goes only to the token the id resolves to |
| TokenSetup.Connect | setup/configure-token-permissions.js:32-62 | with the settings read: a client error throws "Invalid network: … Error: …", a key error "Invalid private key format: …", an operator error "Failed to set operator: …", each after exactly the steps taken so far and without closing the client; with all three passing, the run is those three steps followed by the token part with the operator's key |
| TokenSetup.Configure | setup/configure-token-permissions.js:13-138 | an environment error comes before any SDK step; the client is created first, then the key is parsed in the format its prefix selects; the three setup failures throw their wrapped messages without closing the client; with all three passing, the run continues as the token part with the operator's key; an update is only sent when the keys differ |
| TokenSetup.RerunIsNoOp | setup/configure-token-permissions.js:97-121 | after a successful update installs the operator's key, a rerun sends no update and reports no change |
| JsValues.OrPicksFirstTruthy | frontend/src/pages/CampaignDetails.tsx:82-86 | `a \|\| b` is a when a is truthy, else b |
| JsValues.TrimEmptyIffBlank | frontend/src/pages/CampaignDetails.tsx:142 | `trim()` is empty iff every character is white space |
| JsValues.LowerOfUpper | frontend/src/pages/CampaignDetails.tsx:112-113 | lower-casing the upper-cased text equals lower-casing the text |
| JsNumbers.ParseIntOfIntToString | frontend/src/pages/CampaignDetails.tsx:41 | `parseInt` reads back the text of any integer |
| JsNumbers.ParseIntReadsSign | frontend/src/pages/CampaignDetails.tsx:41 | `parseInt` reads a leading minus sign as negation |
| JsNumbers.BigIntOfIntToString | frontend/src/pages/CampaignDetails.tsx:48 | `BigInt` reads back the text of any integer |
| JsNumbers.ParseBigIntReadsSign | frontend/src/pages/CampaignDetails.tsx:155 | `BigInt` of a signed decimal digit run is its value |
| JsNumbers.ParseFloatReadsLeadingNumber | frontend/src/pages/CampaignDetails.tsx:143 | `parseFloat` reads a leading whole number and ignores the text after it |
| JsNumbers.HexDigitsValue | setup/configure-token-permissions.js:65-66 | printing n in w hex digits and reading them back gives n, when n < 16^w |
| JsNumbers.ParseHexDigits | setup/configure-token-permissions.js:66 | `parseInt(s, 16)` of hex digits is their value |

## Left out

- Rendering, styling, modals, navigation and the "Campaign not found" screen
  are UI and are not modelled. Only the enabling conditions of the donate
  button and the amount input are modelled.
- The remote adapters are not part of this model: the chain adapter,
  Firebase storage, the IPFS upload and the `ipfs.io` fetch. Their answers
  are inputs.
- The Hedera SDK is not part of this model. `Client.forName`, the key
  parsers, `setOperator`, `TokenId.fromString`, the token query and the
  update transaction are inputs. The model records the order in which the
  script asks for them.
- The console logging in all three files is left out.
- Numbers are exact reals. Floating-point rounding of `/ 1e18`, of the
  percentage and of `parseFloat` is not modelled. Very large or very small
  amounts can therefore differ from the browser's results.
- `Number(...)` of a string follows JavaScript's grammar for decimal,
  `0x`, `0o` and `0b` numbers. `Infinity` is not modelled.
- `createdAt` is an integer key, with a missing value read as 0. `Date`
  parsing is not modelled.
- `Array.prototype.sort` is modelled as the stable insertion sort it is
  required to be equivalent to, on values rather than in place.
- The JSON round trip of the cache models only `NaN` becoming `null`. Text
  that does not parse is a separate entry kind.
- Case mapping is ASCII only. Unicode case folding is not modelled.
- `setTimeout` is modelled as the explicit `ExpireSuccess` and
  `ExpireError` methods. The 5000 ms delay is not modelled.
- async interleaving and React effect re-runs are not modelled. A second
  `handleDonate` running before the first settles is not captured.
- The creators and shoe showcase slices in `loadData`
  (frontend/src/pages/Home.tsx:131-132) are left out. They are constant
  slices of the catalogue.
- The campaign edit and deactivate handlers are remote mutations with almost
  no local logic, and are left out.
- Three setup scripts repeat the environment checks, the private-key
  dispatch and the `0x` token-id conversion of the modelled script, and
  then make SDK calls of their own; they are left out:
  - `setup/verify-donation-nft.js`;
  - `setup/associate-contract-token.js`;
  - `setup/test-direct-mint.js`.
- `setup/setup-hedera.js` repeats the credential and network checks and the
  private-key dispatch, then creates the HCS topic and the NFT token. It has
  no token-id conversion. Its creation steps are SDK calls and are left out.
- `frontend/src/app.js` and `frontend/src/component/Banner.tsx` are left
  out. Banner's routing rule is the one `GetStartedRoute` models.
- CampaignView.TextEquals: a numeric id matches the route text only when it
  is an integer printed in plain digits. JavaScript's `toString` also prints
  non-integral numbers (`1.5` matches the route `"1.5"`) and prints integers
  of 10^21 and more in exponent form; neither form is modelled.
- Donation.CheckAmount: `parseFloat` also reads `Infinity`, which the
  handler would accept as a positive amount. The model reads no such prefix
  and rejects that amount as invalid.
- CampaignView.IsCampaignCreator: only string wallet fields are modelled
  as wallets. A truthy non-string wallet (a number, say) has no
  `toLowerCase`, so the page's effect would throw a TypeError. The model
  instead treats that field as not matching.
- Donation.ErrorText: `e?.message` of a thrown value without a message is
  modelled as the empty message.
- TokenSetup.NeedsUpdate: the DER text of a key is an input. The model does
  not check that two different keys have different DER texts.
- TokenSetup.ParseEntityId: only the `shard.realm.num` form that the script
  produces is modelled. The SDK accepts other forms too. It describes how
  the SDK reads that text and nothing more. The script model takes
  `TokenId.fromString` as an input, so `ConfigureToken` does not rely on it.
- Donation.ToBigInt: the runtime throws a RangeError for a non-integral
  number and a SyntaxError for a string it cannot parse. Both are modelled
  by one given message, so the model does not tell the two apart.
