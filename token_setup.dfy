/** The local decisions of the token-permission setup script
    (configure-token-permissions.js): the environment checks, the choice of
    key format, the conversion of a Solidity address to a Hedera token id
    `shard.realm.num`, and whether the token's supply key must be replaced
    by the operator's key. The Hedera SDK's calls are given as answers. */
module TokenSetup {
  import opened JsValues
  import opened JsNumbers

  // ---------------------------------------------------------------------
  // The environment

  /** The variables the script reads; None is an unset variable. */
  datatype Env = Env(accountId: Option<string>, privateKey: Option<string>, network: Option<string>,
                     nftTokenId: Option<string>, proofNft: Option<string>)

  /** A variable is set when it is defined and not empty (`!value` fails). */
  predicate IsSet(v: Option<string>) {
    v.Some? && v.value != ""
  }

  const MissingCredentials: string := "ACCOUNT_ID and PRIVATE_KEY must be set in .env file"
  const MissingTokenId: string := "NFT_TOKEN_ID must be set in .env file"
  const MissingProofNft: string := "PROOF_NFT must be set in .env file"
  const DefaultNetwork: string := "testnet"

  datatype Settings = Settings(accountId: string, privateKey: string, network: string, nftTokenId: string, proofNft: string)

  /** The checks at the top of the script, in their order. */
  function ReadEnv(env: Env): (r: Outcome<Settings>)
    ensures r.Ok? <==> IsSet(env.accountId) && IsSet(env.privateKey) && IsSet(env.nftTokenId) && IsSet(env.proofNft)
    ensures !IsSet(env.accountId) || !IsSet(env.privateKey) ==> r == Thrown(MissingCredentials)
    ensures IsSet(env.accountId) && IsSet(env.privateKey) && !IsSet(env.nftTokenId) ==> r == Thrown(MissingTokenId)
    ensures IsSet(env.accountId) && IsSet(env.privateKey) && IsSet(env.nftTokenId) && !IsSet(env.proofNft) ==>
              r == Thrown(MissingProofNft)
    ensures r.Ok? ==> r.value == Settings(env.accountId.value, env.privateKey.value,
                                          if IsSet(env.network) then env.network.value else DefaultNetwork,
                                          env.nftTokenId.value, env.proofNft.value)
  {
    var network := if IsSet(env.network) then env.network.value else DefaultNetwork;
    if !IsSet(env.accountId) || !IsSet(env.privateKey) then Thrown(MissingCredentials)
    else if !IsSet(env.nftTokenId) then Thrown(MissingTokenId)
    else if !IsSet(env.proofNft) then Thrown(MissingProofNft)
    else Ok(Settings(env.accountId.value, env.privateKey.value, network, env.nftTokenId.value, env.proofNft.value))
  }

  // ---------------------------------------------------------------------
  // The key format

  /** `p` appears in `s` starting at position `j`. */
  predicate OccursAt(s: string, p: string, j: nat) {
    j + |p| <= |s| && s[j..j + |p|] == p
  }

  /** The position of the first occurrence of `p` in `s`. */
  function IndexOf(s: string, p: string): (r: Option<nat>)
    ensures r.Some? ==> OccursAt(s, p, r.value)
    ensures forall j: nat :: (r.None? || j < r.value) ==> !OccursAt(s, p, j)
    ensures StartsWith(s, p) ==> r == Some(0)
  {
    if StartsWith(s, p) then Some(0)
    else if s == [] then None
    else
      var r := IndexOf(s[1..], p);
      ShiftedOccurrences(s, p);
      match r
      case None => None
      case Some(i) => Some(i + 1)
  }

  /** An occurrence after the first character is one in the rest of `s`. */
  lemma ShiftedOccurrences(s: string, p: string)
    requires s != []
    ensures !StartsWith(s, p) ==> !OccursAt(s, p, 0)
    ensures forall j: nat :: j > 0 ==> (OccursAt(s, p, j) <==> OccursAt(s[1..], p, j - 1))
  {
    forall j: nat | 0 < j ensures OccursAt(s, p, j) <==> OccursAt(s[1..], p, j - 1) {
      if j + |p| <= |s| {
        var here, there := s[j..j + |p|], s[1..][j - 1..j - 1 + |p|];
        assert forall k :: 0 <= k < |here| ==> here[k] == there[k];
      }
    }
  }

  /** `s.replace(p, q)` with a string pattern: only the first occurrence is replaced. */
  function ReplaceFirst(s: string, p: string, q: string): string {
    match IndexOf(s, p)
    case None => s
    case Some(i) => s[..i] + q + s[i + |p|..]
  }

  /** How the private key is handed to the SDK. */
  datatype KeyRequest = Ecdsa(hex: string) | Der(text: string)

  /** A key starting with `0x` is read as an ECDSA key without its prefix;
      any other key in the SDK's general (DER) form. */
  function KeyRequestFor(privateKey: string): (r: KeyRequest)
    ensures StartsWith(privateKey, "0x") ==> r.Ecdsa? && "0x" + r.hex == privateKey
    ensures !StartsWith(privateKey, "0x") ==> r == Der(privateKey)
  {
    if StartsWith(privateKey, "0x") then
      assert privateKey == "0x" + privateKey[2..];
      Ecdsa(ReplaceFirst(privateKey, "0x", ""))
    else Der(privateKey)
  }

  /** Only the prefix is removed: a later `0x` in the key stays. */
  lemma EcdsaKeepsLaterPrefix(hex: string)
    ensures KeyRequestFor("0x" + "0x" + hex) == Ecdsa("0x" + hex)
  {
    assert ("0x" + "0x" + hex)[2..] == "0x" + hex;
  }

  // ---------------------------------------------------------------------
  // The token id

  /** A Solidity address: `0x` and forty hexadecimal digits. */
  const SolidityAddressLength: nat := 42

  /** The entity number is in the last ten hexadecimal digits (40 bits). */
  const EntityHexDigits: nat := 10

  /** An entity id `shard.realm.num`. */
  datatype EntityId = EntityId(shard: nat, realm: nat, num: nat)

  /** `'Invalid Solidity address format: ' + nftTokenId`. */
  function InvalidAddress(nftTokenId: string): string {
    "Invalid Solidity address format: " + nftTokenId
  }

  /** The text the script hands to `TokenId.fromString`, or the error it
      throws first. A `0x` id must have 42 characters once lower-cased;
      its last ten characters are read with `parseInt(..., 16)` and placed
      after `0.0.`. Any other id is handed over as it is (`0x` is matched
      case-sensitively, so `0X...` is not converted). */
  function TokenIdText(nftTokenId: string): (r: Outcome<string>)
    ensures !StartsWith(nftTokenId, "0x") ==> r == Ok(nftTokenId)
    ensures StartsWith(nftTokenId, "0x") ==> (r.Thrown? <==> |nftTokenId| != SolidityAddressLength)
    ensures r.Thrown? ==> r.message == InvalidAddress(nftTokenId)
    ensures StartsWith(nftTokenId, "0x") && r.Ok? ==> StartsWith(r.value, "0.0.")
  {
    if StartsWith(nftTokenId, "0x") then
      var addressLower := Lower(nftTokenId);
      assert addressLower[..2] == "0x";
      if |addressLower| == SolidityAddressLength && StartsWith(addressLower, "0x") then
        var entityNumHex := addressLower[|addressLower| - EntityHexDigits..];
        var entityNum := ParseInt(entityNumHex, 16);
        Ok("0.0." + NumberText(entityNum))
      else Thrown(InvalidAddress(nftTokenId))
    else Ok(nftTokenId)
  }

  /** The SDK's reading of the plain `shard.realm.num` form: three runs of
      decimal digits separated by dots. (The SDK accepts other forms too;
      the script only produces this one.) */
  function ParseEntityId(text: string): Option<EntityId> {
    match ReadDecimal(text)
    case None => None
    case Some(a) =>
      match ReadDotted(a.1)
      case None => None
      case Some(b) =>
        match ReadDotted(b.1)
        case None => None
        case Some(c) => if c.1 != [] then None else Some(EntityId(a.0, b.0, c.0))
  }

  /** A dot followed by a run of decimal digits: their value and the text
      after them. */
  function ReadDotted(s: string): Option<(nat, string)> {
    if |s| == 0 || s[0] != '.' then None else ReadDecimal(s[1..])
  }

  /** A leading run of decimal digits: its value and the text after it. */
  function ReadDecimal(s: string): (r: Option<(nat, string)>)
    ensures r.Some? ==> |r.value.1| < |s|
  {
    var d := DigitRun(s, 10);
    if d == 0 then None else Some((DigitsValue(s[..d], 10), s[d..]))
  }

  lemma ReadDecimalOf(d: string, rest: string)
    requires d != [] && AllDigitsIn(d, 10)
    requires rest == [] || !IsDigitIn(rest[0], 10)
    ensures ReadDecimal(d + rest) == Some((DigitsValue(d, 10), rest))
  {
    DigitRunStopsAt(d, rest, 10);
    assert (d + rest)[..|d|] == d && (d + rest)[|d|..] == rest;
  }

  lemma ReadDottedOf(d: string, rest: string)
    requires d != [] && AllDigitsIn(d, 10)
    requires rest == [] || !IsDigitIn(rest[0], 10)
    ensures ReadDotted("." + (d + rest)) == Some((DigitsValue(d, 10), rest))
  {
    assert ("." + (d + rest))[1..] == d + rest;
    ReadDecimalOf(d, rest);
  }

  /** Three runs of digits joined by dots read back as their values. */
  lemma ParseDotted(a: string, b: string, c: string)
    requires a != [] && AllDigitsIn(a, 10) && b != [] && AllDigitsIn(b, 10) && c != [] && AllDigitsIn(c, 10)
    ensures ParseEntityId(a + ("." + (b + ("." + c)))) ==
              Some(EntityId(DigitsValue(a, 10), DigitsValue(b, 10), DigitsValue(c, 10)))
  {
    ReadDecimalOf(a, "." + (b + ("." + c)));
    ReadDottedOf(b, "." + c);
    assert c + [] == c;
    ReadDottedOf(c, []);
  }

  /** The text the conversion produces reads back as shard 0, realm 0 and
      the entity number. */
  lemma EntityTextParses(n: nat)
    ensures ParseEntityId("0.0." + NatToString(n)) == Some(EntityId(0, 0, n))
  {
    var digits := NatToString(n);
    assert "0.0." + digits == "0" + ("." + ("0" + ("." + digits)));
    assert AllDigitsIn("0", 10) && DigitsValue("0", 10) == 0;
    ParseDotted("0", "0", digits);
    NatToStringValue(n);
  }

  /** Lower-casing changes no digit's value. */
  lemma {:induction false} DigitsValueOfLower(s: string, radix: nat)
    ensures DigitsValue(Lower(s), radix) == DigitsValue(s, radix)
    ensures AllDigitsIn(s, radix) ==> AllDigitsIn(Lower(s), radix)
  {
    if s != [] {
      var init := s[..|s| - 1];
      assert Lower(s)[..|s| - 1] == Lower(init);
      DigitsValueOfLower(init, radix);
      assert DigitValue(LowerChar(s[|s| - 1])) == DigitValue(s[|s| - 1]);
    }
  }

  lemma LowerSuffix(s: string, k: nat)
    requires k <= |s|
    ensures Lower(s)[k..] == Lower(s[k..])
  {
  }

  /** A Solidity address whose last ten characters are hexadecimal digits
      (in either case) becomes `0.0.N`, N the value of those digits, below
      16^10; the SDK reads that as shard 0, realm 0, entity N. The first 30
      digits are never looked at. */
  lemma ConvertAddress(nftTokenId: string)
    requires StartsWith(nftTokenId, "0x") && |nftTokenId| == SolidityAddressLength
    requires AllDigitsIn(nftTokenId[32..], 16)
    ensures var n := DigitsValue(nftTokenId[32..], 16);
            && n < Pow(16, EntityHexDigits)
            && TokenIdText(nftTokenId) == Ok("0.0." + NatToString(n))
            && ParseEntityId(TokenIdText(nftTokenId).value) == Some(EntityId(0, 0, n))
  {
    var tail := nftTokenId[32..];
    var n := DigitsValue(tail, 16);
    DigitsValueBound(tail, 16);
    LowerSuffix(nftTokenId, 32);
    DigitsValueOfLower(tail, 16);
    assert Lower(nftTokenId)[..2] == "0x";
    assert |Lower(nftTokenId)| - EntityHexDigits == 32;
    ParseHexDigits(Lower(tail));
    assert NumberText(Some(n)) == NatToString(n);
    EntityTextParses(n);
  }

  /** `n` zeros. */
  function Zeros(n: nat): (s: string)
    ensures |s| == n && AllDigitsIn(s, 16)
  {
    if n == 0 then [] else "0" + Zeros(n - 1)
  }

  /** The address with entity number `n`: `0x`, thirty zeros and `n` in ten
      hexadecimal digits. */
  function LongZeroAddress(n: nat): (s: string)
    ensures |s| == SolidityAddressLength && StartsWith(s, "0x")
  {
    "0x" + Zeros(30) + HexDigits(n, EntityHexDigits)
  }

  /** Round trip: every entity number below 16^10, written as an address,
      converts back to `0.0.n`. */
  lemma AddressRoundTrip(n: nat)
    requires n < Pow(16, EntityHexDigits)
    ensures TokenIdText(LongZeroAddress(n)) == Ok("0.0." + NatToString(n))
    ensures ParseEntityId(TokenIdText(LongZeroAddress(n)).value) == Some(EntityId(0, 0, n))
  {
    var a := LongZeroAddress(n);
    assert a[32..] == HexDigits(n, EntityHexDigits);
    HexDigitsValue(n, EntityHexDigits);
    ConvertAddress(a);
  }

  /** The hexadecimal digits may be written in either case. */
  lemma ConversionIgnoresCase(digits: string)
    requires |digits| == 40
    ensures TokenIdText("0x" + Upper(digits)) == TokenIdText("0x" + digits)
  {
    assert Lower("0x" + Upper(digits)) == "0x" + Lower(Upper(digits));
    assert Lower("0x" + digits) == "0x" + Lower(digits);
    LowerOfUpper(digits);
    assert StartsWith("0x" + Upper(digits), "0x") && StartsWith("0x" + digits, "0x");
  }

  /** A tail that does not start with a hexadecimal digit, a sign or white
      space gives `parseInt` nothing to read: the text is `0.0.NaN`. */
  lemma NonHexTailIsNaN(nftTokenId: string)
    requires StartsWith(nftTokenId, "0x") && |nftTokenId| == SolidityAddressLength
    requires !IsDigitIn(nftTokenId[32], 16) && !IsJsSpace(nftTokenId[32])
    requires nftTokenId[32] != '-' && nftTokenId[32] != '+'
    ensures TokenIdText(nftTokenId) == Ok("0.0.NaN")
  {
    var tail := Lower(nftTokenId)[32..];
    var c := nftTokenId[32];
    assert tail[0] == LowerChar(c);
    assert DigitValue(LowerChar(c)) == DigitValue(c);
    assert !IsJsSpace(LowerChar(c));
    assert TrimStart(tail) == tail;
    assert !IsDigitIn(tail[0], 16) && tail[0] != '0';
    assert DigitRun(tail, 16) == 0;
    assert ParseUnsignedInt(tail, 16).None?;
    assert ParseInt(tail, 16).None?;
    assert Lower(nftTokenId)[..2] == "0x";
    assert |Lower(nftTokenId)| - EntityHexDigits == 32;
    assert TokenIdText(nftTokenId) == Ok("0.0." + NumberText(ParseInt(tail, 16)));
    assert NumberText(None) == "NaN";
    assert "0.0." + "NaN" == "0.0.NaN";
  }

  /** An id in upper-case `0X` form is not converted. */
  lemma UpperPrefixNotConverted(rest: string)
    ensures TokenIdText("0X" + rest) == Ok("0X" + rest)
  {
    assert ("0X" + rest)[1] == 'X';
  }

  // ---------------------------------------------------------------------
  // The supply key

  /** `a && b`. */
  function And(a: JsValue, b: JsValue): JsValue {
    if Truthy(a) then b else a
  }

  /** `needsUpdate` from the DER text of the token's current supply key
      (None when it has none) and of the operator's public key. */
  function NeedsUpdate(currentDer: Option<string>, operatorDer: string): (r: bool)
    ensures r <==> currentDer.None? || currentDer.value == "" || currentDer.value != operatorDer
  {
    var currentSupplyKeyStr := if currentDer.Some? then Str(currentDer.value) else Null;
    var keysMatch := And(currentSupplyKeyStr, Bool(currentDer.Some? && operatorDer == currentDer.value));
    currentDer.None? || !Truthy(keysMatch)
  }

  /** The receipt status of the update. */
  datatype Status = Success | Failure(name: string)

  function UpdateFailed(name: string): string {
    "Token update failed with status: " + name
  }

  // ---------------------------------------------------------------------
  // The whole script

  /** The SDK's answers: the error `Client.forName` throws, the operator's
      public key in DER text (or the error parsing the private key throws),
      the error `setOperator` throws, `TokenId.fromString`, the token query
      (the supply key's DER text, None when there is none), and the update
      transaction (its receipt status, or the error it throws). */
  datatype Sdk = Sdk(clientError: Option<string>, operatorKey: Outcome<string>, operatorError: Option<string>,
                     fromString: string -> Outcome<EntityId>, supplyKey: Outcome<Option<string>>,
                     update: Outcome<Status>)

  /** What the script asks of the SDK, in order. */
  datatype Step =
    | CreateClient(network: string)
    | ParseKey(request: KeyRequest)
    | SetOperator(accountId: string)
    | ResolveTokenId(text: string)
    | QueryToken(token: EntityId)
    | UpdateSupplyKey(token: EntityId, operatorDer: string)
    | CloseClient

  /** The steps taken, and how the script ends: Ok(true) when the supply
      key was replaced, Ok(false) when it already matched. */
  datatype ScriptRun = ScriptRun(steps: seq<Step>, outcome: Outcome<bool>)

  /** The token part once the token id text is known: resolve it, query
      the token, and replace the supply key when it differs. */
  function UpdateToken(text: string, operatorDer: string, sdk: Sdk): (r: ScriptRun)
    ensures |r.steps| >= 2 && r.steps[0] == ResolveTokenId(text) && r.steps[|r.steps| - 1] == CloseClient
    ensures sdk.fromString(text).Ok? ==> |r.steps| >= 3 && r.steps[1] == QueryToken(sdk.fromString(text).value)
    ensures r.outcome == Ok(true) <==> (exists i :: 0 <= i < |r.steps| && r.steps[i].UpdateSupplyKey?) && sdk.update == Ok(Success)
    ensures r.outcome.Ok? ==> sdk.supplyKey.Ok? && (r.outcome.value <==> NeedsUpdate(sdk.supplyKey.value, operatorDer))
    ensures (exists i :: 0 <= i < |r.steps| && r.steps[i].UpdateSupplyKey?) && sdk.update.Ok? && sdk.update.value.Failure? ==>
              r.outcome == Thrown(UpdateFailed(sdk.update.value.name))
    ensures sdk.fromString(text).Ok? && sdk.supplyKey.Ok? ==>
              ((exists i :: 0 <= i < |r.steps| && r.steps[i] == UpdateSupplyKey(sdk.fromString(text).value, operatorDer))
               <==> NeedsUpdate(sdk.supplyKey.value, operatorDer))
    ensures sdk.fromString(text).Ok? && sdk.supplyKey.Ok? && !NeedsUpdate(sdk.supplyKey.value, operatorDer)
            ==> r.outcome == Ok(false)
    ensures sdk.fromString(text).Ok? && sdk.supplyKey.Ok? && NeedsUpdate(sdk.supplyKey.value, operatorDer) &&
              sdk.update == Ok(Success)
            ==> r.outcome == Ok(true)
    // the supply key is sent only when it differs from the operator's key
    ensures forall i :: 0 <= i < |r.steps| && r.steps[i].UpdateSupplyKey? ==>
              sdk.supplyKey.Ok? && NeedsUpdate(sdk.supplyKey.value, operatorDer)
    // a failure inside the `try` ends the run with that very error, after closing the client
    ensures sdk.fromString(text).Thrown? ==> r == ScriptRun([ResolveTokenId(text), CloseClient], Thrown(sdk.fromString(text).message))
    ensures sdk.fromString(text).Ok? && sdk.supplyKey.Thrown? ==>
              r == ScriptRun([ResolveTokenId(text), QueryToken(sdk.fromString(text).value), CloseClient],
                             Thrown(sdk.supplyKey.message))
    ensures sdk.fromString(text).Ok? && sdk.supplyKey.Ok? && NeedsUpdate(sdk.supplyKey.value, operatorDer) &&
              sdk.update.Thrown?
            ==> r.outcome == Thrown(sdk.update.message)
    // the update goes to the resolved token, with the operator's key
    ensures forall i :: 0 <= i < |r.steps| && r.steps[i].UpdateSupplyKey? ==>
              sdk.fromString(text).Ok? && r.steps[i] == UpdateSupplyKey(sdk.fromString(text).value, operatorDer)
  {
    match sdk.fromString(text)
    case Thrown(m) => ScriptRun([ResolveTokenId(text), CloseClient], Thrown(m))
    case Ok(token) =>
      var looked := [ResolveTokenId(text), QueryToken(token)];
      match sdk.supplyKey
      case Thrown(m) => ScriptRun(looked + [CloseClient], Thrown(m))
      case Ok(current) =>
        if NeedsUpdate(current, operatorDer) then
          var updated := looked + [UpdateSupplyKey(token, operatorDer)];
          var steps := updated + [CloseClient];
          assert steps[2] == UpdateSupplyKey(token, operatorDer);
          match sdk.update
          case Thrown(m) => ScriptRun(steps, Thrown(m))
          case Ok(Failure(name)) => ScriptRun(steps, Thrown(UpdateFailed(name)))
          case Ok(Success) => ScriptRun(steps, Ok(true))
        else
          var steps := looked + [CloseClient];
          assert forall i :: 0 <= i < |steps| ==> !steps[i].UpdateSupplyKey?;
          ScriptRun(steps, Ok(false))
  }

  /** The part of the script inside its last `try`: every error closes the
      client and is thrown again as it is. */
  function ConfigureToken(nftTokenId: string, operatorDer: string, sdk: Sdk): (r: ScriptRun)
    ensures r.steps != [] && r.steps[|r.steps| - 1] == CloseClient
    ensures r.outcome == Ok(true) <==> (exists i :: 0 <= i < |r.steps| && r.steps[i].UpdateSupplyKey?) && sdk.update == Ok(Success)
    ensures r.outcome.Ok? ==> sdk.supplyKey.Ok? && (r.outcome.value <==> NeedsUpdate(sdk.supplyKey.value, operatorDer))
    // an update whose receipt is not a success is reported with the status's name
    ensures (exists i :: 0 <= i < |r.steps| && r.steps[i].UpdateSupplyKey?) && sdk.update.Ok? && sdk.update.value.Failure? ==>
              r.outcome == Thrown(UpdateFailed(sdk.update.value.name))
    // a readable token id is resolved first, and a resolved token is queried next
    ensures TokenIdText(nftTokenId).Ok? ==> |r.steps| >= 2 && r.steps[0] == ResolveTokenId(TokenIdText(nftTokenId).value)
    ensures TokenIdText(nftTokenId).Ok? && sdk.fromString(TokenIdText(nftTokenId).value).Ok? ==>
              |r.steps| >= 3 && r.steps[1] == QueryToken(sdk.fromString(TokenIdText(nftTokenId).value).value)
    // once the supply key is known, the operator's key is sent exactly when it is needed ...
    ensures TokenIdText(nftTokenId).Ok? && sdk.fromString(TokenIdText(nftTokenId).value).Ok? && sdk.supplyKey.Ok? ==>
              ((exists i :: 0 <= i < |r.steps| &&
                  r.steps[i] == UpdateSupplyKey(sdk.fromString(TokenIdText(nftTokenId).value).value, operatorDer))
               <==> NeedsUpdate(sdk.supplyKey.value, operatorDer))
    // ... the script ends quietly when it is not ...
    ensures TokenIdText(nftTokenId).Ok? && sdk.fromString(TokenIdText(nftTokenId).value).Ok? && sdk.supplyKey.Ok? &&
              !NeedsUpdate(sdk.supplyKey.value, operatorDer)
            ==> r.outcome == Ok(false)
    // ... and reports the replacement when the update's receipt is a success
    ensures TokenIdText(nftTokenId).Ok? && sdk.fromString(TokenIdText(nftTokenId).value).Ok? && sdk.supplyKey.Ok? &&
              NeedsUpdate(sdk.supplyKey.value, operatorDer) && sdk.update == Ok(Success)
            ==> r.outcome == Ok(true)
    // the supply key is sent only when it differs from the operator's key
    ensures forall i :: 0 <= i < |r.steps| && r.steps[i].UpdateSupplyKey? ==>
              sdk.supplyKey.Ok? && NeedsUpdate(sdk.supplyKey.value, operatorDer)
    // a malformed `0x` id is rejected before the SDK is asked anything
    ensures TokenIdText(nftTokenId).Thrown? ==> r == ScriptRun([CloseClient], Thrown(InvalidAddress(nftTokenId)))
    // the update goes to the resolved token, with the operator's key
    ensures forall i :: 0 <= i < |r.steps| && r.steps[i].UpdateSupplyKey? ==>
              TokenIdText(nftTokenId).Ok? && sdk.fromString(TokenIdText(nftTokenId).value).Ok? &&
              r.steps[i] == UpdateSupplyKey(sdk.fromString(TokenIdText(nftTokenId).value).value, operatorDer)
  {
    match TokenIdText(nftTokenId)
    case Thrown(m) => ScriptRun([CloseClient], Thrown(m))
    case Ok(text) => UpdateToken(text, operatorDer, sdk)
  }

  /** The client setup once the environment is read: create the client,
      parse the key, set the operator, then the token part. */
  function Connect(settings: Settings, sdk: Sdk): (r: ScriptRun)
    ensures |r.steps| >= 1 && r.steps[0] == CreateClient(settings.network)
    ensures sdk.clientError.None? ==> |r.steps| >= 2 && r.steps[1] == ParseKey(KeyRequestFor(settings.privateKey))
    ensures forall i :: 0 <= i < |r.steps| && r.steps[i].UpdateSupplyKey? ==>
              sdk.operatorKey.Ok? && sdk.supplyKey.Ok? && NeedsUpdate(sdk.supplyKey.value, sdk.operatorKey.value)
    ensures sdk.clientError.Some? ==>
              r == ScriptRun([CreateClient(settings.network)],
                             Thrown("Invalid network: " + settings.network + ". Error: " + sdk.clientError.value))
    ensures sdk.clientError.None? && sdk.operatorKey.Thrown? ==>
              r == ScriptRun([CreateClient(settings.network), ParseKey(KeyRequestFor(settings.privateKey))],
                             Thrown("Invalid private key format: " + sdk.operatorKey.message))
    ensures sdk.clientError.None? && sdk.operatorKey.Ok? && sdk.operatorError.Some? ==>
              r == ScriptRun([CreateClient(settings.network), ParseKey(KeyRequestFor(settings.privateKey)),
                              SetOperator(settings.accountId)],
                             Thrown("Failed to set operator: " + sdk.operatorError.value))
    ensures sdk.clientError.None? && sdk.operatorKey.Ok? && sdk.operatorError.None? ==>
              var rest := ConfigureToken(settings.nftTokenId, sdk.operatorKey.value, sdk);
              r == ScriptRun([CreateClient(settings.network), ParseKey(KeyRequestFor(settings.privateKey)),
                              SetOperator(settings.accountId)] + rest.steps, rest.outcome)
  {
    match sdk.clientError
    case Some(e) =>
      ScriptRun([CreateClient(settings.network)], Thrown("Invalid network: " + settings.network + ". Error: " + e))
    case None =>
      match sdk.operatorKey
      case Thrown(e) =>
        ScriptRun([CreateClient(settings.network), ParseKey(KeyRequestFor(settings.privateKey))],
                  Thrown("Invalid private key format: " + e))
      case Ok(operatorDer) =>
        var operated := [CreateClient(settings.network), ParseKey(KeyRequestFor(settings.privateKey)),
                         SetOperator(settings.accountId)];
        match sdk.operatorError
        case Some(e) => ScriptRun(operated, Thrown("Failed to set operator: " + e))
        case None =>
          var rest := ConfigureToken(settings.nftTokenId, operatorDer, sdk);
          assert forall i :: 3 <= i < |operated + rest.steps| ==> (operated + rest.steps)[i] == rest.steps[i - 3];
          ScriptRun(operated + rest.steps, rest.outcome)
  }

  /** `configureTokenPermissions()`. */
  function Configure(env: Env, sdk: Sdk): (r: ScriptRun)
    // the environment is checked before the SDK is asked anything
    ensures ReadEnv(env).Thrown? ==> r == ScriptRun([], Thrown(ReadEnv(env).message))
    ensures ReadEnv(env).Ok? ==> |r.steps| >= 1 && r.steps[0] == CreateClient(ReadEnv(env).value.network)
    // the key is parsed in the format its prefix selects
    ensures ReadEnv(env).Ok? && sdk.clientError.None? ==>
              |r.steps| >= 2 && r.steps[1] == ParseKey(KeyRequestFor(ReadEnv(env).value.privateKey))
    // the supply key is replaced only when it differs from the operator's key
    ensures forall i :: 0 <= i < |r.steps| && r.steps[i].UpdateSupplyKey? ==>
              sdk.operatorKey.Ok? && sdk.supplyKey.Ok? && NeedsUpdate(sdk.supplyKey.value, sdk.operatorKey.value)
    // each setup failure is rethrown with its own wording, and the client is never closed
    ensures ReadEnv(env).Ok? && sdk.clientError.Some? ==>
              r.steps == [CreateClient(ReadEnv(env).value.network)] &&
              r.outcome == Thrown("Invalid network: " + ReadEnv(env).value.network + ". Error: " + sdk.clientError.value)
    ensures ReadEnv(env).Ok? && sdk.clientError.None? && sdk.operatorKey.Thrown? ==>
              r.steps == [CreateClient(ReadEnv(env).value.network), ParseKey(KeyRequestFor(ReadEnv(env).value.privateKey))] &&
              r.outcome == Thrown("Invalid private key format: " + sdk.operatorKey.message)
    ensures ReadEnv(env).Ok? && sdk.clientError.None? && sdk.operatorKey.Ok? && sdk.operatorError.Some? ==>
              r.steps == [CreateClient(ReadEnv(env).value.network), ParseKey(KeyRequestFor(ReadEnv(env).value.privateKey)),
                          SetOperator(ReadEnv(env).value.accountId)] &&
              r.outcome == Thrown("Failed to set operator: " + sdk.operatorError.value)
    // with the client set up, the rest is the token part, with the operator's key
    ensures ReadEnv(env).Ok? && sdk.clientError.None? && sdk.operatorKey.Ok? && sdk.operatorError.None? ==>
              var rest := ConfigureToken(ReadEnv(env).value.nftTokenId, sdk.operatorKey.value, sdk);
              r.steps == [CreateClient(ReadEnv(env).value.network), ParseKey(KeyRequestFor(ReadEnv(env).value.privateKey)),
                          SetOperator(ReadEnv(env).value.accountId)] + rest.steps &&
              r.outcome == rest.outcome
  {
    match ReadEnv(env)
    case Thrown(m) => ScriptRun([], Thrown(m))
    case Ok(settings) => Connect(settings, sdk)
  }

  /** Once the update has installed the operator's key, running the script
      again finds the keys matching and changes nothing. */
  lemma RerunIsNoOp(env: Env, sdk: Sdk)
    requires Configure(env, sdk).outcome == Ok(true)
    ensures sdk.operatorKey.Ok? && sdk.operatorKey.value != "" ==>
              var again := Configure(env, sdk.(supplyKey := Ok(Some(sdk.operatorKey.value))));
              again.outcome == Ok(false) && forall i :: 0 <= i < |again.steps| ==> !again.steps[i].UpdateSupplyKey?
  {
  }

  /** A token without a supply key always needs one. */
  lemma NoSupplyKeyNeedsUpdate(operatorDer: string)
    ensures NeedsUpdate(None, operatorDer)
  {
  }
}
