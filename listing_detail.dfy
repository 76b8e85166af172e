/** The offer ("bid") flow of the listing detail screen: the four-way check
    of the typed amount against the asking rent, the submission that
    toggles the screen's flags around the create-bid call, the owner gate on
    the offer bar and the phone-number fallback of the call button. */
module ListingDetail {
  import opened JsRuntime

  /** The parts of a fetched listing that the offer flow and the contact
      buttons read. */
  datatype Listing = Listing(
    id: string,                  // listing._id
    monthlyRent: real,           // the asking price
    ownerId: Option<string>,     // listing.userId?._id
    phoneNumber: Option<string>, // listing.phoneNumber
    ownerPhone: Option<string>)  // listing.userId?.phoneNumber

  /** What `handleSubmitBid` decides for the typed amount. */
  datatype BidDecision =
    | InvalidAmount                     // "Please enter a valid bid amount"
    | TooLow(minimum: real, bid: real)  // "Bid Too Low", quoting both values
    | NeedsConfirmation                 // "High Bid ... Continue anyway?"
    | SubmitDirectly                    // submitBid() without a prompt

  /** The smallest amount that is not "too low": 60% of the asking price. */
  function MinimumBid(monthlyRent: real): real {
    monthlyRent * 0.6
  }

  /** The guard chain of `handleSubmitBid`. `parsed` is `parseFloat(amountText)`,
      None standing for NaN: NaN fails every comparison, so text that does
      not parse is neither invalid, too low nor too high. */
  function ClassifyBid(amountText: string, parsed: Option<real>, monthlyRent: real): (d: BidDecision)
    ensures d == InvalidAmount <==> amountText == "" || (parsed.Some? && parsed.value <= 0.0)
    ensures d.TooLow? <==>
      amountText != "" && parsed.Some? && 0.0 < parsed.value < MinimumBid(monthlyRent)
    ensures d.TooLow? ==> d.minimum == MinimumBid(monthlyRent) && d.bid == parsed.value
    ensures d == NeedsConfirmation <==>
      amountText != "" && parsed.Some? && 0.0 < parsed.value
      && MinimumBid(monthlyRent) <= parsed.value && monthlyRent < parsed.value
    ensures d == SubmitDirectly <==>
      amountText != "" &&
      (parsed.None? || (0.0 < parsed.value && MinimumBid(monthlyRent) <= parsed.value <= monthlyRent))
  {
    if amountText == "" || (parsed.Some? && parsed.value <= 0.0) then InvalidAmount
    else if parsed.Some? && parsed.value < MinimumBid(monthlyRent) then TooLow(MinimumBid(monthlyRent), parsed.value)
    else if parsed.Some? && parsed.value > monthlyRent then NeedsConfirmation
    else SubmitDirectly
  }

  /** Whether the decision leads to a create-bid call, given the answer to
      the "High Bid" prompt (true for "Continue", false for "Cancel"). */
  predicate LeadsToSubmission(d: BidDecision, continuePressed: bool) {
    d == SubmitDirectly || (d == NeedsConfirmation && continuePressed)
  }

  /** A parsed amount that reaches the backend is positive and at least the
      minimum; only an amount above the asking price needs the prompt. */
  lemma SubmittedAmountIsInRange(amountText: string, parsed: Option<real>, monthlyRent: real, continuePressed: bool)
    requires parsed.Some?
    requires LeadsToSubmission(ClassifyBid(amountText, parsed, monthlyRent), continuePressed)
    ensures amountText != ""
    ensures 0.0 < parsed.value && MinimumBid(monthlyRent) <= parsed.value
    ensures parsed.value > monthlyRent ==> continuePressed
  {
  }

  /** Non-empty text that parseFloat cannot read (NaN) is submitted as is:
      the guard chain does not reject it. */
  lemma UnparsableAmountIsSubmitted(amountText: string, monthlyRent: real)
    requires amountText != ""
    ensures ClassifyBid(amountText, None, monthlyRent) == SubmitDirectly
  {
  }

  /** The minimum is inclusive and the asking price is inclusive: both ends of
      [60% of the rent, the rent] are submitted without a prompt. */
  lemma BoundsAreInclusive(amountText: string, monthlyRent: real)
    requires amountText != "" && 0.0 < monthlyRent
    ensures ClassifyBid(amountText, Some(MinimumBid(monthlyRent)), monthlyRent) == SubmitDirectly
    ensures ClassifyBid(amountText, Some(monthlyRent), monthlyRent) == SubmitDirectly
  {
  }

  /** The offer examples for an asking price of 1000. */
  lemma OffersAgainstAThousand()
    ensures ClassifyBid("700", Some(700.0), 1000.0) == SubmitDirectly
    ensures ClassifyBid("500", Some(500.0), 1000.0) == TooLow(600.0, 500.0)
    ensures ClassifyBid("1200", Some(1200.0), 1000.0) == NeedsConfirmation
    ensures ClassifyBid("0", Some(0.0), 1000.0) == InvalidAmount
    ensures ClassifyBid("600", Some(600.0), 1000.0) == SubmitDirectly
  {
  }

  /** `isOwner`: optional chaining yields undefined on both sides when the
      viewer is signed out and the owner is not populated, and
      `undefined === undefined` holds, so that viewer counts as the owner. */
  predicate IsOwner(viewerId: Option<string>, listing: Listing) {
    viewerId == listing.ownerId
  }

  /** The "Make an Offer" bar (and the contact buttons) are rendered only for
      viewers who are not the owner. */
  predicate ShowsOfferBar(viewerId: Option<string>, listing: Listing) {
    !IsOwner(viewerId, listing)
  }

  /** A phone field counts when it is present and truthy (non-empty). */
  predicate HasText(s: Option<string>) {
    s.Some? && s.value != ""
  }

  /** `listing.phoneNumber || listing.userId?.phoneNumber`, followed by the
      `!phoneNumber` check: the number to call, if there is one. */
  function PhoneToCall(listing: Listing): (r: Option<string>)
    ensures r.Some? ==> r.value != ""
    ensures r.None? <==> !HasText(listing.phoneNumber) && !HasText(listing.ownerPhone)
    ensures HasText(listing.phoneNumber) ==> r == listing.phoneNumber
    ensures !HasText(listing.phoneNumber) && HasText(listing.ownerPhone) ==> r == listing.ownerPhone
  {
    var p := if HasText(listing.phoneNumber) then listing.phoneNumber else listing.ownerPhone;
    if HasText(p) then p else None
  }

  /** The call button is rendered exactly when the viewer is not the owner
      and `handleCallOwner` would find a number (it never shows the
      "No Phone Number" alert from a rendered button). */
  predicate ShowsCallButton(viewerId: Option<string>, listing: Listing) {
    ShowsOfferBar(viewerId, listing) && (HasText(listing.phoneNumber) || HasText(listing.ownerPhone))
  }

  lemma CallButtonFindsANumber(viewerId: Option<string>, listing: Listing)
    ensures ShowsCallButton(viewerId, listing) <==>
      ShowsOfferBar(viewerId, listing) && PhoneToCall(listing).Some?
  {
  }

  /** The body sent by `api.createBid`. */
  datatype BidPayload = BidPayload(listingId: string, amount: Option<real>, message: string)

  /** The native alert currently on screen. */
  datatype BidAlert =
    | InvalidAmountAlert
    | TooLowAlert(minimum: real, bid: real)
    | HighBidAlert
    | SuccessAlert
    | ErrorAlert(text: string)

  /** The bid modal's state on the listing detail screen. `sent` records the
      create-bid calls made so far, standing for the backend. */
  class BidForm {
    const listing: Listing
    const viewerId: Option<string>
    const parse: string -> Option<real>  // parseFloat; None for NaN
    var showBidModal: bool
    var bidAmount: string
    var bidMessage: string
    var submittingBid: bool
    var alert: Option<BidAlert>
    var sent: seq<BidPayload>

    constructor (listing: Listing, viewerId: Option<string>, parse: string -> Option<real>)
      ensures this.listing == listing && this.viewerId == viewerId && this.parse == parse
      ensures !showBidModal && bidAmount == "" && bidMessage == "" && !submittingBid
      ensures alert == None && sent == []
    {
      this.listing := listing;
      this.viewerId := viewerId;
      this.parse := parse;
      showBidModal := false;
      bidAmount := "";
      bidMessage := "";
      submittingBid := false;
      alert := None;
      sent := [];
    }

    /** The decision for the amount currently typed. */
    function Decision(): BidDecision
      reads this
    {
      ClassifyBid(bidAmount, parse(bidAmount), listing.monthlyRent)
    }

    /** What `submitBid` sends for the fields as they are now. A payload sent
      without a prompt carries NaN or an amount within [minimum, rent]; one
      sent after the prompt carries an amount above the rent. */
    function Payload(): (p: BidPayload)
      reads this
      ensures Decision() == SubmitDirectly ==>
        p.amount.None? || (0.0 < p.amount.value && MinimumBid(listing.monthlyRent) <= p.amount.value <= listing.monthlyRent)
      ensures Decision() == NeedsConfirmation ==> p.amount.Some? && p.amount.value > listing.monthlyRent
    {
      BidPayload(listing.id, parse(bidAmount), bidMessage)
    }

    /** "Make an Offer": the button exists only for non-owners. */
    method OpenModal()
      requires ShowsOfferBar(viewerId, listing)
      modifies this`showBidModal
      ensures showBidModal
    {
      showBidModal := true;
    }

    /** The close icon, the Cancel button or the back gesture of the modal:
      the typed fields are kept. */
    method CloseModal()
      modifies this`showBidModal
      ensures !showBidModal
    {
      showBidModal := false;
    }

    method SetAmount(text: string)
      modifies this`bidAmount
      ensures bidAmount == text
    {
      bidAmount := text;
    }

    method SetMessage(text: string)
      modifies this`bidMessage
      ensures bidMessage == text
    {
      bidMessage := text;
    }

    /** The first half of `submitBid`: the flag is raised and the create call
      is made with the listing id, the parsed amount and the message. */
    method BeginSubmit()
      modifies this`submittingBid, this`sent
      ensures submittingBid
      ensures sent == old(sent) + [old(Payload())]
    {
      submittingBid := true;
      sent := sent + [Payload()];
    }

    /** "Submit Offer": `handleSubmitBid`. The button is disabled while a
      submission is in flight, and a native alert blocks it while shown. */
    method HandleSubmitBid() returns (d: BidDecision)
      requires !submittingBid && alert == None
      modifies this`submittingBid, this`sent, this`alert
      ensures d == old(Decision())
      ensures d == SubmitDirectly ==> submittingBid && sent == old(sent) + [old(Payload())] && alert == None
      ensures d != SubmitDirectly ==> !submittingBid && sent == old(sent)
      ensures d == InvalidAmount ==> alert == Some(InvalidAmountAlert)
      ensures d.TooLow? ==> alert == Some(TooLowAlert(d.minimum, d.bid))
      ensures d == NeedsConfirmation ==> alert == Some(HighBidAlert)
    {
      d := Decision();
      match d
      case InvalidAmount => alert := Some(InvalidAmountAlert);
      case TooLow(minimum, bid) => alert := Some(TooLowAlert(minimum, bid));
      case NeedsConfirmation => alert := Some(HighBidAlert);
      case SubmitDirectly => BeginSubmit();
    }

    /** "Continue" on the "High Bid" prompt: the bid is submitted unchanged. */
    method ContinueHighBid()
      requires alert == Some(HighBidAlert)
      modifies this`submittingBid, this`sent, this`alert
      ensures alert == None && submittingBid
      ensures sent == old(sent) + [old(Payload())]
    {
      alert := None;
      BeginSubmit();
    }

    /** "Cancel" on the "High Bid" prompt: nothing is submitted. */
    method CancelHighBid()
      requires alert == Some(HighBidAlert)
      modifies this`alert
      ensures alert == None
    {
      alert := None;
    }

    /** The second half of `submitBid`, once the create call settles: a
      success or error alert, and the flag lowered in `finally` on both
      paths. The modal and the fields are left as they were. */
    method FinishSubmit(created: Outcome<()>)
      requires submittingBid
      modifies this`submittingBid, this`alert
      ensures !submittingBid
      ensures created.Ok? ==> alert == Some(SuccessAlert)
      ensures created.Fail? && ToStringOf(created.error).Some? ==>
        alert == Some(ErrorAlert(ToStringOf(created.error).value))
      ensures created.Fail? && ToStringOf(created.error).None? ==> alert == old(alert)
    {
      match created {
        case Ok(_) => alert := Some(SuccessAlert);
        case Fail(e) =>
          var text := ToStringOf(e);
          if text.Some? {
            alert := Some(ErrorAlert(text.value));
          }
      }
      submittingBid := false;
    }

    /** "OK" on the success alert: the modal closes and both fields clear. */
    method AcknowledgeSuccess()
      requires alert == Some(SuccessAlert)
      modifies this`showBidModal, this`bidAmount, this`bidMessage, this`alert
      ensures !showBidModal && bidAmount == "" && bidMessage == "" && alert == None
    {
      showBidModal := false;
      bidAmount := "";
      bidMessage := "";
      alert := None;
    }

    /** "OK" on any other alert (invalid amount, too low, error). */
    method DismissAlert()
      requires alert.Some? && alert != Some(SuccessAlert) && alert != Some(HighBidAlert)
      modifies this`alert
      ensures alert == None
    {
      alert := None;
    }
  }

  /** A client run of the flow: an amount above the asking price is sent only
      after "Continue", and after a success is acknowledged the form is empty. */
  method HighBidScenario(listing: Listing, parse: string -> Option<real>, created: Outcome<()>)
    requires parse("1500") == Some(1500.0) && listing.monthlyRent == 1000.0
    requires listing.ownerId == Some("owner")
  {
    var form := new BidForm(listing, Some("renter"), parse);
    form.OpenModal();
    form.SetAmount("1500");
    var d := form.HandleSubmitBid();
    assert d == NeedsConfirmation;
    assert form.sent == [];
    form.ContinueHighBid();
    assert form.sent == [BidPayload(listing.id, Some(1500.0), "")];
    form.FinishSubmit(created);
    assert !form.submittingBid;
    if created.Ok? {
      form.AcknowledgeSuccess();
      assert form.bidAmount == "" && !form.showBidModal;
    } else {
      assert form.bidAmount == "1500" && form.showBidModal;
    }
  }
}
