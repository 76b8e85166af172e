/** The owner's inbox of bids on one listing: the status badge colour and
    icon, the three counters, the Accept/Reject actions offered only on
    pending bids, the confirmed status update followed by a refetch, the
    fetch flags and which of error, empty state and list is shown. */
module ListingBids {
  import opened JsRuntime

  /** The fields of a bid that the inbox reads. */
  datatype Bid = Bid(id: string, status: string)

  /** The four statuses the badge knows. */
  const KnownStatuses: set<string> := {"pending", "accepted", "rejected", "withdrawn"}

  const DefaultColor: string := "#666"
  const DefaultIcon: string := "help-circle-outline"

  /** `getStatusColor`. */
  function StatusColor(status: string): (color: string)
    ensures status !in KnownStatuses <==> color == DefaultColor
  {
    match status
    case "pending" => "#ff9500"
    case "accepted" => "#34c759"
    case "rejected" => "#ff3b30"
    case "withdrawn" => "#8e8e93"
    case _ => DefaultColor
  }

  /** `getStatusIcon`. */
  function StatusIcon(status: string): (icon: string)
    ensures status !in KnownStatuses <==> icon == DefaultIcon
  {
    match status
    case "pending" => "time-outline"
    case "accepted" => "checkmark-circle"
    case "rejected" => "close-circle"
    case "withdrawn" => "remove-circle-outline"
    case _ => DefaultIcon
  }

  /** The four known statuses have four different colours and four different
      icons, so the badge tells them apart. */
  lemma BadgesTellKnownStatusesApart(s: string, t: string)
    requires s in KnownStatuses && t in KnownStatuses && s != t
    ensures StatusColor(s) != StatusColor(t)
    ensures StatusIcon(s) != StatusIcon(t)
  {
  }

  /** `bids.filter((b) => b.status === status).length`. */
  function CountStatus(bids: seq<Bid>, status: string): (n: nat)
    ensures n <= |bids|
    ensures n == 0 <==> forall i | 0 <= i < |bids| :: bids[i].status != status
  {
    if bids == [] then 0
    else (if bids[0].status == status then 1 else 0) + CountStatus(bids[1..], status)
  }

  /** The statuses of the bids, in order. */
  function Statuses(bids: seq<Bid>): seq<string>
  {
    seq(|bids|, i requires 0 <= i < |bids| => bids[i].status)
  }

  /** The filter count is the number of occurrences of the status among the
      bids' statuses. */
  lemma {:induction false} CountIsMultiplicity(bids: seq<Bid>, status: string)
    ensures CountStatus(bids, status) == multiset(Statuses(bids))[status]
  {
    if bids != [] {
      CountIsMultiplicity(bids[1..], status);
      assert Statuses(bids) == [bids[0].status] + Statuses(bids[1..]);
    }
  }

  /** Counts of two different statuses never exceed the number of bids
      together. */
  lemma {:induction false} DistinctCountsFit(bids: seq<Bid>, s: string, t: string)
    requires s != t
    ensures CountStatus(bids, s) + CountStatus(bids, t) <= |bids|
  {
    if bids != [] {
      DistinctCountsFit(bids[1..], s, t);
    }
  }

  /** The three stat cards. */
  datatype Stats = Stats(total: nat, pending: nat, accepted: nat)

  function StatsOf(bids: seq<Bid>): (st: Stats)
    ensures st.total == |bids|
    ensures st.pending + st.accepted <= st.total
    ensures st.pending == multiset(Statuses(bids))["pending"]
    ensures st.accepted == multiset(Statuses(bids))["accepted"]
  {
    DistinctCountsFit(bids, "pending", "accepted");
    CountIsMultiplicity(bids, "pending");
    CountIsMultiplicity(bids, "accepted");
    Stats(|bids|, CountStatus(bids, "pending"), CountStatus(bids, "accepted"))
  }

  /** The owner's two answers to a pending bid. */
  datatype BidAction = Accept | Reject

  /** The status sent to `api.updateBidStatus` for an answer. */
  function ActionStatus(a: BidAction): (status: string)
    ensures status == "accepted" || status == "rejected"
    ensures status == "accepted" <==> a == Accept
  {
    match a
    case Accept => "accepted"
    case Reject => "rejected"
  }

  /** The action buttons rendered on a bid card. */
  function ActionsFor(bid: Bid): (actions: seq<BidAction>)
    ensures actions != [] <==> bid.status == "pending"
    ensures actions != [] ==> actions == [Accept, Reject]
  {
    if bid.status == "pending" then [Accept, Reject] else []
  }

  /** One bid card: its badge and its buttons. */
  datatype Card = Card(bidId: string, color: string, icon: string, actions: seq<BidAction>)

  function CardFor(bid: Bid): Card {
    Card(bid.id, StatusColor(bid.status), StatusIcon(bid.status), ActionsFor(bid))
  }

  /** What the screen shows. */
  datatype View =
    | Spinner                             // "Loading bids..."
    | ErrorPanel(message: string)         // the error with a Retry button
    | EmptyState                          // "No Bids Yet"
    | BidList(stats: Stats, cards: seq<Card>)

  /** `error ? ... : bids.length === 0 ? ... : ...`: an empty error string is
      falsy and shows nothing. */
  predicate ErrorShown(error: Option<string>) {
    error.Some? && error.value != ""
  }

  /** The render: loading first, then error, then the empty state, then the
      list with its counters and one card per bid. */
  function Render(loading: bool, error: Option<string>, bids: seq<Bid>): (v: View)
    ensures v == Spinner <==> loading
    ensures v.ErrorPanel? <==> !loading && ErrorShown(error)
    ensures v.ErrorPanel? ==> v.message == error.value
    ensures v == EmptyState <==> !loading && !ErrorShown(error) && bids == []
    ensures v.BidList? ==> v.stats == StatsOf(bids) && |v.cards| == |bids|
    ensures v.BidList? ==> forall i | 0 <= i < |bids| :: v.cards[i] == CardFor(bids[i])
    ensures v.BidList? ==>
      && v.stats.total == |bids| && v.stats.pending + v.stats.accepted <= |bids|
      && |v.cards| == |bids|
      && forall i | 0 <= i < |bids| ::
           v.cards[i].bidId == bids[i].id
           && (v.cards[i].actions != [] <==> bids[i].status == "pending")
  {
    if loading then Spinner
    else if ErrorShown(error) then ErrorPanel(error.value)
    else if bids == [] then EmptyState
    else BidList(StatsOf(bids), seq(|bids|, i requires 0 <= i < |bids| => CardFor(bids[i])))
  }

  /** A call to `api.updateBidStatus`. */
  datatype StatusUpdate = StatusUpdate(bidId: string, status: string)

  /** The alert after a status update settles. */
  datatype InboxAlert = UpdatedAlert(status: string) | UpdateErrorAlert(text: string)

  /** The inbox screen's state. `updates` records the status-update calls
      made so far, standing for the backend. */
  class BidsScreen {
    var bids: seq<Bid>
    var loading: bool
    var refreshing: bool
    var error: Option<string>
    var alert: Option<InboxAlert>
    var updates: seq<StatusUpdate>

    constructor ()
      ensures bids == [] && loading && !refreshing && error == None
      ensures alert == None && updates == []
    {
      bids := [];
      loading := true;
      refreshing := false;
      error := None;
      alert := None;
      updates := [];
    }

    function Screen(): View
      reads this
    {
      Render(loading, error, bids)
    }

    /** `fetchBids`: the error is cleared first; the fetched list replaces
      the bids, or the caught value's text becomes the error (none when it
      was null, whose toString throws); both flags end false. */
    method FetchBids(fetched: Outcome<seq<Bid>>)
      modifies this`bids, this`loading, this`refreshing, this`error
      ensures !loading && !refreshing
      ensures fetched.Ok? ==> bids == fetched.value && error == None
      ensures fetched.Fail? ==> bids == old(bids) && error == ToStringOf(fetched.error)
    {
      error := None;
      match fetched {
        case Ok(data) => bids := data;
        case Fail(e) => error := ToStringOf(e);
      }
      loading := false;
      refreshing := false;
    }

    /** Pull to refresh: the spinner flag is raised, then `fetchBids` lowers it. */
    method OnRefresh(fetched: Outcome<seq<Bid>>)
      modifies this`bids, this`loading, this`refreshing, this`error
      ensures !loading && !refreshing
      ensures fetched.Ok? ==> bids == fetched.value && error == None
      ensures fetched.Fail? ==> bids == old(bids) && error == ToStringOf(fetched.error)
    {
      refreshing := true;
      FetchBids(fetched);
    }

    /** Accept or Reject on the card at `i` (rendered only for a pending bid),
      then the confirm dialog. Nothing is sent unless the dialog's action
      button is pressed; a successful update is followed by a refetch. */
    method UpdateBidStatus(i: nat, action: BidAction, confirmed: bool,
                           updated: Outcome<()>, refetched: Outcome<seq<Bid>>)
      requires i < |bids| && action in ActionsFor(bids[i])
      modifies this
      ensures !confirmed ==> unchanged(this)
      ensures confirmed ==> updates == old(updates) + [StatusUpdate(old(bids[i].id), ActionStatus(action))]
      ensures confirmed && updated.Ok? ==>
        && alert == Some(UpdatedAlert(ActionStatus(action)))
        && !loading && !refreshing
        && (refetched.Ok? ==> bids == refetched.value && error == None)
        && (refetched.Fail? ==> bids == old(bids) && error == ToStringOf(refetched.error))
      ensures confirmed && updated.Fail? ==>
        && bids == old(bids) && error == old(error) && loading == old(loading)
        && refreshing == old(refreshing)
        && alert == (if ToStringOf(updated.error).Some?
                     then Some(UpdateErrorAlert(ToStringOf(updated.error).value)) else old(alert))
    {
      if !confirmed {
        return;
      }
      var status := ActionStatus(action);
      updates := updates + [StatusUpdate(bids[i].id, status)];
      match updated {
        case Ok(_) =>
          alert := Some(UpdatedAlert(status));
          FetchBids(refetched);
        case Fail(e) =>
          var text := ToStringOf(e);
          if text.Some? {
            alert := Some(UpdateErrorAlert(text.value));
          }
      }
    }
  }

  /** Every status update that the inbox sends is "accepted" or "rejected",
      and it targets a bid that was pending when its button was pressed. */
  method AnswerPendingBid(screen: BidsScreen, i: nat, action: BidAction, updated: Outcome<()>,
                          refetched: Outcome<seq<Bid>>)
    requires i < |screen.bids| && screen.bids[i].status == "pending"
    modifies screen
  {
    var before := screen.bids[i];
    screen.UpdateBidStatus(i, action, true, updated, refetched);
    var sent := screen.updates[|screen.updates| - 1];
    assert sent.bidId == before.id;
    assert sent.status == "accepted" || sent.status == "rejected";
  }
}
