/** The donate form of the campaign page (CampaignDetails.tsx): the amount
    check, the identifier the transfer is sent to, the state the handler
    leaves behind on each path, and the timers that clear its messages. */
module Donation {
  import opened JsValues
  import opened JsNumbers
  import opened CampaignView

  const InvalidAmountMessage: string := "Please enter a valid amount"
  const DefaultFailureMessage: string := "Donation failed. Please try again."

  /** What the handler makes of the amount before doing anything else. */
  datatype AmountCheck = Ignored | Invalid | Accepted(value: real)

  /** A blank amount or a missing wallet returns at once; an amount whose
      leading number is missing or not positive is rejected; otherwise
      the leading number is the donation, as `parseFloat` reads it. */
  function CheckAmount(amount: string, isConnected: bool): (r: AmountCheck)
    ensures r == Ignored <==> Trim(amount) == "" || !isConnected
    ensures r.Accepted? <==> r != Ignored && ParseFloat(amount).Some? && ParseFloat(amount).value > 0.0
    ensures r.Accepted? ==> r.value == ParseFloat(amount).value
  {
    if Trim(amount) == "" || !isConnected then Ignored
    else
      match ParseFloat(amount)
      case None => Invalid
      case Some(v) => if v <= 0.0 then Invalid else Accepted(v)
  }

  /** An enabled button does not mean an accepted amount: the handler
      still rejects what `parseFloat` cannot read ... */
  lemma UnreadableAmountRejected()
    ensures CheckAmount("abc", true) == Invalid
  {
    TrimNoop("abc");
    assert UnsignedDecimalPrefix("abc").None? by {
      assert DigitRun("abc", 10) == 0;
    }
    assert DecimalPrefix("abc").None?;
  }

  /** ... and accepts a leading number followed by anything else. */
  lemma LeadingNumberAccepted(n: nat, rest: string)
    requires n > 0
    requires rest == [] || (!IsDigitIn(rest[0], 10) && rest[0] != '.' && rest[0] != 'e' && rest[0] != 'E')
    ensures CheckAmount(NatToString(n) + rest, true) == Accepted(n as real)
  {
    var s := NatToString(n) + rest;
    assert Trim(s) != "" by {
      assert s[0] == NatToString(n)[0];
      DecimalDigitIsPlain(s[0]);
      TrimEmptyIffBlank(s);
    }
    ParseFloatReadsLeadingNumber(n, rest);
  }

  lemma BlankAmountIgnored()
    ensures CheckAmount(" \t", true) == Ignored
    ensures CheckAmount("12", false) == Ignored
  {
    TrimEmptyIffBlank(" \t");
  }

  /** With the button enabled the handler never returns silently. */
  lemma EnabledButtonIsNeverIgnored(amount: string, isConnected: bool, isDonating: bool, campaign: Campaign)
    requires DonateButtonEnabled(amount, isConnected, isDonating, campaign)
    ensures CheckAmount(amount, isConnected) != Ignored
  {
  }

  /** `BigInt(v)` for a truthy field value; `message` is what the runtime
      throws when the value is not an integer. */
  function ToBigInt(v: JsValue, message: string): (r: Outcome<int>)
    ensures r.Thrown? ==> r.message == message
    // a number converts exactly when it is an integer, to itself
    ensures v.Num? ==> (r.Ok? <==> IsIntegral(v.n)) && (r.Ok? ==> r.value as real == v.n)
    ensures v.Str? ==> (r.Ok? <==> ParseBigInt(v.s).Some?) && (r.Ok? ==> r.value == ParseBigInt(v.s).value)
    // `BigInt(true)` is 1
    ensures v == Bool(true) ==> r == Ok(1)
  {
    match v
    case Num(n) => if IsIntegral(n) then Ok(n.Floor) else Thrown(message)
    case Str(s) =>
      (match ParseBigInt(s)
       case Some(k) => Ok(k)
       case None => Thrown(message))
    case Bool(b) => Ok(if b then 1 else 0)
    case _ => Thrown(message)
  }

  /** The campaign the transfer goes to: the onchainId if truthy, else the
      id if truthy, else the route parameter (`'0'` when missing). */
  function TransferCampaignId(campaign: Campaign, routeId: Option<string>, message: string): (r: Outcome<int>)
    // the first truthy of onchainId and id decides, whatever the route says
    ensures Truthy(campaign.onchainId) ==> r == ToBigInt(campaign.onchainId, message)
    ensures !Truthy(campaign.onchainId) && Truthy(campaign.id) ==> r == ToBigInt(campaign.id, message)
    // with neither, the route's campaign number, when it has one
    ensures !Truthy(campaign.onchainId) && !Truthy(campaign.id) ==>
      (r.Ok? <==> ChainNumber(routeId).Some?) && (r.Ok? ==> r.value == ChainNumber(routeId).value)
    ensures r.Thrown? ==> r.message == message
  {
    if Truthy(campaign.onchainId) then ToBigInt(campaign.onchainId, message)
    else if Truthy(campaign.id) then ToBigInt(campaign.id, message)
    else
      match ChainNumber(routeId)
      case Some(n) => Ok(n)
      case None => Thrown(message)
  }

  /** For a merged view the transfer and the read-back address the same
      campaign: the one the route parameter names. */
  lemma MergedViewDonatesToRouteCampaign(view: Campaign, routeId: Option<string>, message: string)
    requires ChainNumber(routeId).Some?
    requires view.id == Num(ChainNumber(routeId).value as real) && view.onchainId == view.id
    ensures TransferCampaignId(view, routeId, message) == Ok(ChainNumber(routeId).value)
  {
    var n := ChainNumber(routeId).value;
    assert IsIntegral(n as real) && (n as real).Floor == n;
  }

  /** A route parameter that starts with a letter other than a radix
      prefix has no chain number: `BigInt` throws on it. */
  lemma WordRouteHasNoChainNumber(word: string)
    requires word != [] && 'a' <= word[0] <= 'z' && !IsJsSpace(word[|word| - 1])
    ensures ChainNumber(Some(word)).None?
  {
    assert RouteText(Some(word), "0") == word;
    assert Trim(word) == word by { TrimNoop(word); }
    assert RadixPrefix(word) == 0;
    assert RadixLiteral(word, 10).None? by {
      assert DigitRun(word, 10) == 0;
    }
  }

  /** A fallback record shown under such a route parameter is donated to
      by its onchainId, while the read-back of the total parses the route
      parameter and throws. */
  lemma FallbackRouteDiffers(c: Campaign, word: string, message: string)
    requires c.onchainId == Num(3.0)
    requires word != [] && 'a' <= word[0] <= 'z' && !IsJsSpace(word[|word| - 1])
    ensures TransferCampaignId(c, Some(word), message) == Ok(3)
    ensures ChainNumber(Some(word)).None?
  {
    assert IsIntegral(3.0) && (3.0).Floor == 3;
    WordRouteHasNoChainNumber(word);
  }

  /** The form's state: `donationAmount`, `campaign`, `isDonating`,
      `donationSuccess`, `donationError` and `txHash`. */
  datatype Form = Form(amount: string, campaign: Campaign, isDonating: bool, success: bool,
                       error: Option<string>, txHash: Option<string>)

  /** A success message is shown exactly when a transaction hash is. */
  predicate Consistent(f: Form) {
    f.success <==> f.txHash.Some?
  }

  /** A call the handler makes to the outside. */
  datatype Call = Transfer(campaignId: int, valueHBAR: real) | ReadTotal(campaignId: int)

  /** A timer the handler schedules; each fires after `MessageMillis`. */
  datatype Timer = ClearSuccess | ClearError

  const MessageMillis: nat := 5000

  /** What the outside answers: the transfer's transaction hash or error,
      the total read back or an error, and the message the runtime gives a
      failed `BigInt` conversion. */
  datatype Answers = Answers(transfer: Outcome<string>, total: Outcome<JsValue>, conversionMessage: string)

  /** The form after the handler, the calls it made in order and the timers
      it left. */
  datatype Run = Run(form: Form, calls: seq<Call>, timers: seq<Timer>)

  /** `e?.message || 'Donation failed. Please try again.'` */
  function ErrorText(message: string): (r: string)
    ensures r != ""
    ensures message != "" ==> r == message
    ensures message == "" ==> r == DefaultFailureMessage
  {
    if message == "" then DefaultFailureMessage else message
  }

  /** The campaign after a successful read-back: the total and the
      percentage it gives of `goal || target || 0`. */
  function Refreshed(campaign: Campaign, total: JsValue): (r: Campaign)
    // only the total and the percentage change
    ensures r == campaign.(amountRaised := total, percentage := r.percentage)
    // the percentage is of the goal, else of the target, else 0
    ensures Truthy(campaign.goal) ==> r.percentage == Percentage(total, campaign.goal)
    ensures !Truthy(campaign.goal) && Truthy(campaign.target) ==> r.percentage == Percentage(total, campaign.target)
    ensures !Truthy(campaign.goal) && !Truthy(campaign.target) ==> r.percentage == Num(0.0)
  {
    campaign.(amountRaised := total,
              percentage := Percentage(total, Or(Or(campaign.goal, campaign.target), Num(0.0))))
  }

  /** The catch and finally blocks. */
  function Failed(f: Form, message: string, calls: seq<Call>): Run {
    Run(f.(error := Some(ErrorText(message)), isDonating := false), calls, [ClearError])
  }

  /** The form right after the amount is accepted, before the first wait. */
  function Started(f: Form): Form {
    f.(isDonating := true, error := None, success := false, txHash := None)
  }

  /** The whole handler, on the form it was called with, once the amount
      check, the transfer's target and `BigInt(id || '0')` are decided. */
  function Donate(f: Form, check: AmountCheck, target: Outcome<int>, routeNumber: Option<int>,
                  answers: Answers): (r: Run)
    // nothing happens without an amount and a wallet; a bad amount only sets the message
    ensures check == Ignored ==> r == Run(f, [], [])
    ensures check == Invalid ==> r == Run(f.(error := Some(InvalidAmountMessage)), [], [])
    // an accepted amount always ends with the form released and a message timer
    ensures check.Accepted? ==> !r.form.isDonating && |r.timers| == 1
    // at most one transfer, first, of the accepted amount, to the decided target
    ensures |r.calls| <= 2
    ensures r.calls != [] ==> check.Accepted? && target.Ok? && r.calls[0] == Transfer(target.value, check.value)
    // the total is read back only after a transfer went through, for the route's campaign
    ensures |r.calls| == 2 ==> answers.transfer.Ok? && routeNumber.Some? && r.calls[1] == ReadTotal(routeNumber.value)
    // a transfer that went through is reported as a success with its hash, and clears the amount
    ensures r.calls != [] && answers.transfer.Ok? ==>
      r.form.success && r.form.txHash == Some(answers.transfer.value) && r.form.amount == ""
    // the success timer is scheduled exactly when nothing failed
    ensures r.timers == [ClearSuccess] <==> check.Accepted? && |r.calls| == 2 && answers.total.Ok?
    ensures r.timers == [ClearSuccess] ==>
      r.form.error.None? && r.form.campaign == Refreshed(f.campaign, answers.total.value)
    // every failure shows a non-empty message and leaves the campaign alone
    ensures r.timers == [ClearError] ==> r.form.error.Some? && r.form.error.value != "" && r.form.campaign == f.campaign
    // the message is that of the step that threw
    ensures check.Accepted? && target.Thrown? ==> r.form.error == Some(ErrorText(target.message))
    ensures check.Accepted? && target.Ok? && answers.transfer.Thrown? ==>
      r.form.error == Some(ErrorText(answers.transfer.message))
    ensures check.Accepted? && target.Ok? && answers.transfer.Ok? && routeNumber.None? ==>
      r.form.error == Some(ErrorText(answers.conversionMessage))
    ensures check.Accepted? && target.Ok? && answers.transfer.Ok? && routeNumber.Some? && answers.total.Thrown? ==>
      r.form.error == Some(ErrorText(answers.total.message))
    // a failure before the transfer went through shows no success and keeps the amount typed
    ensures check.Accepted? && (target.Thrown? || answers.transfer.Thrown?) ==>
      !r.form.success && r.form.txHash.None? && r.form.amount == f.amount
    // once the target is decided the transfer is always attempted ...
    ensures check.Accepted? && target.Ok? ==> r.calls != []
    // ... a transfer that went through is followed by the read-back, when the route has a number ...
    ensures check.Accepted? && target.Ok? && answers.transfer.Ok? && routeNumber.Some? ==> |r.calls| == 2
    // ... and when every answer is Ok the campaign is refreshed and the success message kept for its timer
    ensures check.Accepted? && target.Ok? && answers.transfer.Ok? && routeNumber.Some? && answers.total.Ok? ==>
      r.timers == [ClearSuccess] &&
      r.form == f.(amount := "", campaign := Refreshed(f.campaign, answers.total.value), isDonating := false,
                   success := true, error := None, txHash := Some(answers.transfer.value))
  {
    match check
    case Ignored => Run(f, [], [])
    case Invalid => Run(f.(error := Some(InvalidAmountMessage)), [], [])
    case Accepted(v) =>
      var started := Started(f);
      match target
      case Thrown(m) => Failed(started, m, [])
      case Ok(id) =>
        match answers.transfer
        case Thrown(m) => Failed(started, m, [Transfer(id, v)])
        case Ok(hash) =>
          var sent := started.(txHash := Some(hash), success := true, amount := "");
          match routeNumber
          case None => Failed(sent, answers.conversionMessage, [Transfer(id, v)])
          case Some(n) =>
            match answers.total
            case Thrown(m) => Failed(sent, m, [Transfer(id, v), ReadTotal(n)])
            case Ok(total) =>
              Run(sent.(campaign := Refreshed(f.campaign, total), isDonating := false),
                  [Transfer(id, v), ReadTotal(n)], [ClearSuccess])
  }

  /** `handleDonate` for the form, the wallet state and the route parameter. */
  function HandleDonateRun(f: Form, isConnected: bool, routeId: Option<string>, answers: Answers): Run {
    Donate(f, CheckAmount(f.amount, isConnected), TransferCampaignId(f.campaign, routeId, answers.conversionMessage),
           ChainNumber(routeId), answers)
  }

  /** The handler keeps a success message and a hash together. */
  lemma DonateKeepsConsistent(f: Form, check: AmountCheck, target: Outcome<int>, routeNumber: Option<int>, answers: Answers)
    requires Consistent(f)
    ensures Consistent(Donate(f, check, target, routeNumber, answers).form)
  {
  }

  /** A transfer that went through but whose total cannot be read back is
      shown as a success and as an error at once, and only the error is
      ever cleared by a timer. */
  lemma ReadBackFailureAfterTransfer(f: Form, v: real, id: int, routeNumber: Option<int>, answers: Answers)
    requires answers.transfer.Ok? && (routeNumber.None? || answers.total.Thrown?)
    ensures var r := Donate(f, Accepted(v), Ok(id), routeNumber, answers);
      r.form.success && r.form.error.Some? && r.timers == [ClearError] && r.form.campaign == f.campaign
  {
  }

  /** A merged view whose transfer and read-back both answer is refreshed
      with the total, for the campaign its route names, and the form ends
      released with a success message. */
  lemma MergedViewDonation(f: Form, isConnected: bool, routeId: Option<string>, answers: Answers)
    requires CheckAmount(f.amount, isConnected).Accepted?
    requires ChainNumber(routeId).Some?
    requires f.campaign.id == Num(ChainNumber(routeId).value as real) && f.campaign.onchainId == f.campaign.id
    requires answers.transfer.Ok? && answers.total.Ok?
    ensures var r := HandleDonateRun(f, isConnected, routeId, answers);
      && r.calls == [Transfer(ChainNumber(routeId).value, CheckAmount(f.amount, isConnected).value),
                     ReadTotal(ChainNumber(routeId).value)]
      && r.timers == [ClearSuccess]
      && r.form == f.(amount := "", campaign := Refreshed(f.campaign, answers.total.value),
                      isDonating := false, success := true, error := None, txHash := Some(answers.transfer.value))
  {
    MergedViewDonatesToRouteCampaign(f.campaign, routeId, answers.conversionMessage);
  }

  /** After a refresh the percentage is the share of `goal || target`, while
      the load computes it from `goal` alone; the two agree when the goal is
      truthy. */
  lemma RefreshAgreesWithLoadWhenGoalSet(c: Campaign, total: JsValue)
    requires Truthy(c.goal)
    ensures Refreshed(c, total).percentage == Percentage(total, Or(c.goal, Num(0.0)))
    ensures Refreshed(c, total).amountRaised == total
  {
  }

  lemma RefreshFallsBackToTarget(c: Campaign)
    requires c.goal == Num(0.0) && c.target == Num(200.0)
    ensures Refreshed(c, Num(50.0)).percentage == Num(25.0)
    ensures Percentage(Num(50.0), Or(c.goal, Num(0.0))) == Num(0.0)
  {
  }

  /** The form as the page holds it, changed in place by the handler's
      steps and by its timers. */
  class DonationForm {
    var amount: string
    var campaign: Campaign
    var isDonating: bool
    var success: bool
    var error: Option<string>
    var txHash: Option<string>

    function State(): Form
      reads this
    {
      Form(amount, campaign, isDonating, success, error, txHash)
    }

    predicate Valid()
      reads this
    {
      Consistent(State())
    }

    /** The form as first rendered for a loaded campaign. */
    constructor (campaign: Campaign)
      ensures State() == Form("", campaign, false, false, None, None)
      ensures Valid()
    {
      this.amount := "";
      this.campaign := campaign;
      this.isDonating := false;
      this.success := false;
      this.error := None;
      this.txHash := None;
    }

    /** Typing in the amount field. */
    method Type(text: string)
      modifies this
      ensures State() == old(State()).(amount := text)
      ensures old(Valid()) ==> Valid()
    {
      amount := text;
    }

    /** The synchronous start: the form locks and clears its messages; from
        here until the handler settles the button is disabled. */
    method Begin()
      modifies this
      ensures State() == Started(old(State()))
      ensures Valid() && !DonateButtonEnabled(amount, true, isDonating, campaign)
    {
      isDonating := true;
      error := None;
      success := false;
      txHash := None;
    }

    /** The transfer's receipt arrived. */
    method RecordTransfer(hash: string)
      modifies this
      ensures State() == old(State()).(txHash := Some(hash), success := true, amount := "")
      ensures Valid()
    {
      txHash := Some(hash);
      success := true;
      amount := "";
    }

    /** The total was read back. */
    method ApplyTotal(total: JsValue)
      modifies this
      ensures State() == old(State()).(campaign := Refreshed(old(campaign), total))
      ensures old(Valid()) ==> Valid()
    {
      campaign := Refreshed(campaign, total);
    }

    /** The catch block. */
    method Fail(message: string)
      modifies this
      ensures State() == old(State()).(error := Some(ErrorText(message)))
      ensures old(Valid()) ==> Valid()
    {
      error := Some(ErrorText(message));
    }

    /** The finally block. */
    method Settle()
      modifies this
      ensures State() == old(State()).(isDonating := false)
      ensures old(Valid()) ==> Valid()
    {
      isDonating := false;
    }

    /** The success timer firing. */
    method ExpireSuccess()
      modifies this
      ensures State() == old(State()).(success := false, txHash := None)
      ensures Valid()
    {
      success := false;
      txHash := None;
    }

    /** The error timer firing. */
    method ExpireError()
      modifies this
      ensures State() == old(State()).(error := None)
      ensures old(Valid()) ==> Valid()
    {
      error := None;
    }

    /** `handleDonate`, with the outside's answers given. The amount check
        and the two `BigInt` conversions read nothing the handler changes,
        so they are decided first and the steps follow them. */
    method HandleDonate(isConnected: bool, routeId: Option<string>, answers: Answers)
      returns (calls: seq<Call>, timers: seq<Timer>)
      modifies this
      ensures Run(State(), calls, timers) == HandleDonateRun(old(State()), isConnected, routeId, answers)
      ensures old(Valid()) ==> Valid()
    {
      var check := CheckAmount(amount, isConnected);
      var target := TransferCampaignId(campaign, routeId, answers.conversionMessage);
      var routeNumber := ChainNumber(routeId);
      calls, timers := Respond(check, target, routeNumber, answers);
    }

    /** The handler's steps once its decisions are known. */
    method Respond(check: AmountCheck, target: Outcome<int>, routeNumber: Option<int>, answers: Answers)
      returns (calls: seq<Call>, timers: seq<Timer>)
      modifies this
      ensures Run(State(), calls, timers) == Donate(old(State()), check, target, routeNumber, answers)
      ensures old(Valid()) ==> Valid()
    {
      calls, timers := [], [];
      if check == Ignored {
        return;
      }
      if check == Invalid {
        error := Some(InvalidAmountMessage);
        return;
      }
      var snapshot := campaign;
      Begin();
      if target.Thrown? {
        Fail(target.message);
        Settle();
        timers := [ClearError];
        return;
      }
      calls := [Transfer(target.value, check.value)];
      if answers.transfer.Thrown? {
        Fail(answers.transfer.message);
        Settle();
        timers := [ClearError];
        return;
      }
      RecordTransfer(answers.transfer.value);
      if routeNumber.None? {
        Fail(answers.conversionMessage);
        Settle();
        timers := [ClearError];
        return;
      }
      calls := calls + [ReadTotal(routeNumber.value)];
      if answers.total.Thrown? {
        Fail(answers.total.message);
        Settle();
        timers := [ClearError];
        return;
      }
      campaign := Refreshed(snapshot, answers.total.value);
      timers := [ClearSuccess];
      Settle();
    }
  }
}
