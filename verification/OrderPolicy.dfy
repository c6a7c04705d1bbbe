/** Server-side rules deciding which seller actions an order offers, and the local
    effect of an action that the platform accepted. */
module OrderPolicy {

  datatype Action =
    | ConfirmShipping
    | OfflineShipping
    | FreeShipping
    | CloseOrder
    | RateBuyer
    | RefuseRefund

  /** One order row. Text fields hold the value after the source's trimming (and, for
      the refund status, lower-casing); the sets hold the upper-cased members. */
  datatype Order = Order(
    accountId: string,
    tradeRole: string,
    platformConfirmed: bool,
    platformOrderId: string,
    status: string,
    refundStatus: string,
    sellerRateStatus: string,
    capabilities: set<string>,
    shippingMethods: set<string>,
    refundActions: set<string>,
    headinfoConfirmed: bool,
    isBargain: bool,
    itemId: string,
    buyerId: string,
    refundId: string,
    refuseOptions: seq<string>,
    logisticsType: string,
    carrierCode: string,
    trackingNo: string
  )

  datatype Reason =
    | Allowed
    | NotSellerOrder
    | NotConfirmed
    | NoPlatformOrderId
    | CapabilityMissing
    | AlreadyRefunded
    | NotAwaitingDelivery
    | NoDummyConsign
    | NoOfflineConsign
    | NotBargain
    | NoItemId
    | NoBuyerId
    | RefundInProgress
    | NotCloseable
    | NotCompleted
    | AlreadyRated
    | RefusalNotOffered
    | NoRefundId
    | NoActiveRefund
    | NoRefuseOptions

  datatype Availability = Availability(action: Action, enabled: bool, reason: Reason)

  const ACTIONS: seq<Action> :=
    [ConfirmShipping, OfflineShipping, FreeShipping, CloseOrder, RateBuyer, RefuseRefund]

  predicate IsShipping(a: Action) {
    a.ConfirmShipping? || a.OfflineShipping? || a.FreeShipping?
  }

  predicate RefundFinished(o: Order) {
    o.refundStatus in {"refunded", "success", "completed"}
  }

  predicate RefundActive(o: Order) {
    o.refundStatus in {"pending", "processing", "refunding", "requested"}
  }

  function RequiredCapability(a: Action): string {
    match a
    case ConfirmShipping => "LOGISTICS_SEND"
    case OfflineShipping => "LOGISTICS_SEND"
    case FreeShipping => "GROUPON_FREE_SHIPPING"
    case CloseOrder => "CLOSE_ORDER"
    case RateBuyer => "RATE"
    case RefuseRefund => ""
  }

  function CommonReason(o: Order): Reason {
    if o.tradeRole != "seller" then NotSellerOrder
    else if !o.platformConfirmed then NotConfirmed
    else if o.platformOrderId == "" then NoPlatformOrderId
    else Allowed
  }

  function ShippingReason(o: Order, a: Action): Reason
    requires IsShipping(a)
  {
    if RefundFinished(o) then AlreadyRefunded
    else if o.status != "paid_waiting_delivery" then NotAwaitingDelivery
    else if a.ConfirmShipping? && "DUMMY_CONSIGN" !in o.shippingMethods then NoDummyConsign
    else if a.OfflineShipping? && "OFFLINE_CONSIGN" !in o.shippingMethods then NoOfflineConsign
    else if a.FreeShipping? && !o.isBargain then NotBargain
    else if a.FreeShipping? && o.itemId == "" then NoItemId
    else if a.FreeShipping? && o.buyerId == "" then NoBuyerId
    else Allowed
  }

  function ReasonFor(o: Order, a: Action): Reason {
    var common := CommonReason(o);
    if !common.Allowed? then common
    else if o.headinfoConfirmed && RequiredCapability(a) != "" && RequiredCapability(a) !in o.capabilities then
      CapabilityMissing
    else if IsShipping(a) then ShippingReason(o, a)
    else if a.CloseOrder? then
      if RefundActive(o) then RefundInProgress
      else if o.status !in {"pending_payment", "paid_waiting_delivery"} then NotCloseable
      else Allowed
    else if a.RateBuyer? then
      if o.status != "completed" then NotCompleted
      else if o.sellerRateStatus == "4" then AlreadyRated
      else Allowed
    else
      if "REFUSE_REFUND" !in o.refundActions then RefusalNotOffered
      else if o.refundId == "" then NoRefundId
      else if !RefundActive(o) then NoActiveRefund
      else if o.refuseOptions == [] then NoRefuseOptions
      else Allowed
  }

  predicate Enabled(o: Order, a: Action) {
    ReasonFor(o, a).Allowed?
  }

  /** What an enabled action demands, read off the rules without their order. */
  ghost predicate MayPerform(o: Order, a: Action) {
    && o.tradeRole == "seller" && o.platformConfirmed && o.platformOrderId != ""
    && (o.headinfoConfirmed && a in {ConfirmShipping, OfflineShipping} ==> "LOGISTICS_SEND" in o.capabilities)
    && (o.headinfoConfirmed && a == FreeShipping ==> "GROUPON_FREE_SHIPPING" in o.capabilities)
    && (o.headinfoConfirmed && a == CloseOrder ==> "CLOSE_ORDER" in o.capabilities)
    && (o.headinfoConfirmed && a == RateBuyer ==> "RATE" in o.capabilities)
    && (a in {ConfirmShipping, OfflineShipping, FreeShipping} ==>
          && o.status == "paid_waiting_delivery"
          && o.refundStatus != "refunded" && o.refundStatus != "success" && o.refundStatus != "completed")
    && (a == ConfirmShipping ==> "DUMMY_CONSIGN" in o.shippingMethods)
    && (a == OfflineShipping ==> "OFFLINE_CONSIGN" in o.shippingMethods)
    && (a == FreeShipping ==> o.isBargain && o.itemId != "" && o.buyerId != "")
    && (a == CloseOrder ==> (o.status == "pending_payment" || o.status == "paid_waiting_delivery") && !RefundOpen(o))
    && (a == RateBuyer ==> o.status == "completed" && o.sellerRateStatus != "4")
    && (a == RefuseRefund ==>
          "REFUSE_REFUND" in o.refundActions && o.refundId != "" && RefundOpen(o) && o.refuseOptions != [])
  }

  ghost predicate RefundOpen(o: Order) {
    || o.refundStatus == "pending" || o.refundStatus == "processing"
    || o.refundStatus == "refunding" || o.refundStatus == "requested"
  }

  /** The rule chain as the source runs it: one entry per known action, in order. */
  method OrderActionAvailability(o: Order) returns (results: seq<Availability>)
    ensures |results| == |ACTIONS|
    ensures forall i :: 0 <= i < |results| ==>
      && results[i].action == ACTIONS[i]
      && results[i].reason == ReasonFor(o, ACTIONS[i])
      && (results[i].enabled <==> MayPerform(o, ACTIONS[i]))
  {
    results := [];
    for i := 0 to |ACTIONS|
      invariant |results| == i
      invariant forall k :: 0 <= k < i ==>
        && results[k].action == ACTIONS[k]
        && results[k].reason == ReasonFor(o, ACTIONS[k])
        && (results[k].enabled <==> MayPerform(o, ACTIONS[k]))
    {
      var reason := ReasonFor(o, ACTIONS[i]);
      EnabledExactlyWhenPermitted(o, ACTIONS[i]);
      results := results + [Availability(ACTIONS[i], reason.Allowed?, reason)];
    }
  }

  /** The ordered chain of reasons offers an action exactly when every condition holds. */
  lemma EnabledExactlyWhenPermitted(o: Order, a: Action)
    ensures Enabled(o, a) <==> MayPerform(o, a)
  {
  }

  /** Local order state after the platform accepted `a`. */
  function Apply(o: Order, a: Action, carrier: string, tracking: string): Order {
    match a
    case ConfirmShipping => o.(status := "shipped", logisticsType := "dummy")
    case OfflineShipping =>
      o.(status := "shipped", logisticsType := "offline",
         carrierCode := if carrier != "" then carrier else o.carrierCode,
         trackingNo := if tracking != "" then tracking else o.trackingNo)
    case FreeShipping => o.(status := "shipped", logisticsType := "bargain_free_shipping")
    case CloseOrder => o.(status := "closed")
    case RateBuyer => o.(sellerRateStatus := "4")
    case RefuseRefund => o.(refundStatus := "rejected", refundActions := {}, refuseOptions := [])
  }

  /** One accepted action, with the shipping details it carried. */
  datatype Accepted = Accepted(action: Action, carrier: string, tracking: string)

  function After(o: Order, acts: seq<Accepted>): Order
    decreases |acts|
  {
    if acts == [] then o
    else After(Apply(o, acts[0].action, acts[0].carrier, acts[0].tracking), acts[1..])
  }

  /** Each action was offered at the moment it was applied. */
  ghost predicate OfferedInTurn(o: Order, acts: seq<Accepted>)
    decreases |acts|
  {
    acts != [] ==>
      && Enabled(o, acts[0].action)
      && OfferedInTurn(Apply(o, acts[0].action, acts[0].carrier, acts[0].tracking), acts[1..])
  }

  /** Steps the trade can still take: one for the delivery or rating that is due, one for
      a refund request that is still open. */
  ghost function Remaining(o: Order): nat {
    (if o.status == "pending_payment" || o.status == "paid_waiting_delivery"
        || (o.status == "completed" && o.sellerRateStatus != "4") then 1 else 0)
    + (if RefundActive(o) then 1 else 0)
  }

  /** An applied action is no longer offered, whatever the order was. */
  lemma AppliedActionIsDisabled(o: Order, a: Action, carrier: string, tracking: string)
    ensures !Enabled(Apply(o, a, carrier, tracking), a)
  {
  }

  /** Closing an order that may be closed leaves nothing to do. */
  lemma ClosingDisablesEverything(o: Order, carrier: string, tracking: string, b: Action)
    requires Enabled(o, CloseOrder)
    ensures !Enabled(Apply(o, CloseOrder, carrier, tracking), b)
  {
  }

  lemma RemainingFalls(o: Order, a: Action, carrier: string, tracking: string)
    requires Enabled(o, a)
    ensures Remaining(Apply(o, a, carrier, tracking)) < Remaining(o)
  {
  }

  lemma {:induction false} RemainingBoundsRun(o: Order, acts: seq<Accepted>)
    requires OfferedInTurn(o, acts)
    ensures |acts| + Remaining(After(o, acts)) <= Remaining(o)
    decreases |acts|
  {
    if acts != [] {
      RemainingFalls(o, acts[0].action, acts[0].carrier, acts[0].tracking);
      RemainingBoundsRun(Apply(o, acts[0].action, acts[0].carrier, acts[0].tracking), acts[1..]);
    }
  }

  /** Without news from the platform at most two actions can succeed on one order, and
      after two of them none is offered any more. */
  lemma AtMostTwoActions(o: Order, acts: seq<Accepted>)
    requires OfferedInTurn(o, acts)
    ensures |acts| <= 2
    ensures |acts| == 2 ==> forall b :: !Enabled(After(o, acts), b)
  {
    RemainingBoundsRun(o, acts);
    if |acts| == 2 {
      var last := After(o, acts);
      forall b ensures !Enabled(last, b) {
        if Enabled(last, b) { RemainingFalls(last, b, "", ""); }
      }
    }
  }

  /** The bound of two is reached: refuse the open refund, then ship. */
  lemma TwoActionsAreReached() returns (o: Order, acts: seq<Accepted>)
    ensures OfferedInTurn(o, acts) && |acts| == 2
  {
    o := Order("a", "seller", true, "1", "paid_waiting_delivery", "pending", "", {}, {"DUMMY_CONSIGN"},
               {"REFUSE_REFUND"}, false, false, "", "", "r", ["x"], "", "", "");
    acts := [Accepted(RefuseRefund, "", ""), Accepted(ConfirmShipping, "", "")];
    var mid := Apply(o, RefuseRefund, "", "");
    assert Enabled(o, RefuseRefund);
    assert Enabled(mid, ConfirmShipping);
    assert acts[1..][1..] == [];
    assert OfferedInTurn(mid, acts[1..]);
  }
}
