/**
 * The order details page (OrderDetails.jsx): progress, status steps, the
 * tracking timeline, the delivery estimate, the permission check on the
 * fetched order and the page shown for each load state.
 */
module OrderDetails {
  import opened Wrappers
  import opened OrderView
  import SessionUser

  /** `getProgressPercentage`. */
  function ProgressPercentage(status: string): (r: nat)
    ensures r <= 100
    ensures r == 0 <==> status !in Steps
    ensures status in Steps ==> r == 25 * (IndexOf(Steps, status) + 1)
  {
    if status == "PENDING" then 25
    else if status == "CONFIRMED" then 50
    else if status == "SHIPPED" then 75
    else if status == "DELIVERED" then 100
    else 0
  }

  /** Progress strictly increases along the four steps. */
  lemma ProgressIncreases(i: nat, j: nat)
    requires i < j < |Steps|
    ensures ProgressPercentage(Steps[i]) < ProgressPercentage(Steps[j])
  {
    assert IndexOf(Steps, Steps[i]) == i && IndexOf(Steps, Steps[j]) == j;
  }

  /** Status step `index` is active when the status is at or past it. */
  predicate StepActive(status: string, index: nat) {
    IndexOf(Steps, status) >= index
  }

  /** A known status activates exactly the steps up to its own; an unknown one activates none. */
  lemma StepActiveIff(status: string, index: nat)
    requires index < |Steps|
    ensures status in Steps ==> (StepActive(status, index) <==> index <= IndexOf(Steps, status))
    ensures status !in Steps ==> !StepActive(status, index)
  {
  }

  lemma CancelledActivatesNoStep(index: nat)
    ensures !StepActive("CANCELLED", index)
  {
    assert "CANCELLED" !in Steps;
  }

  /** The statuses the five tracking steps are matched against; shipping is listed twice. */
  const TimelineStatuses: seq<string> := ["PENDING", "CONFIRMED", "SHIPPED", "SHIPPED", "DELIVERED"]

  /** Timeline step `index` is completed when it is at most the first index of the status. */
  predicate TimelineCompleted(status: string, index: nat) {
    index <= IndexOf(TimelineStatuses, status)
  }

  /** A shipped order completes the first three tracking steps, never "Out for Delivery"; a delivered one completes all five. */
  lemma TimelineOfShipped(index: nat)
    requires index < |TimelineStatuses|
    ensures TimelineCompleted("SHIPPED", index) <==> index <= 2
    ensures !TimelineCompleted("SHIPPED", 3)
    ensures TimelineCompleted("DELIVERED", index)
  {
    assert IndexOf(TimelineStatuses, "SHIPPED") == 2;
    assert IndexOf(TimelineStatuses, "DELIVERED") == 4;
  }

  /** The delivery estimate: a prefix and the day it names, or the empty text. */
  datatype Estimate = Estimate(prefix: string, day: int) | NoEstimate

  /** The day offset added to the order date. */
  function DeliveryOffset(status: string): (r: Option<nat>)
    ensures r.None? <==> status !in Steps
  {
    if status == "PENDING" then Some(5)
    else if status == "CONFIRMED" then Some(3)
    else if status == "SHIPPED" then Some(1)
    else if status == "DELIVERED" then Some(0)
    else None
  }

  /** `getDeliveryEstimate`, with the day a count of days since an epoch. */
  function DeliveryEstimate(status: string, orderDay: int): (r: Estimate)
    ensures r.NoEstimate? <==> DeliveryOffset(status).None?
    ensures r.Estimate? ==> r.day == orderDay + DeliveryOffset(status).value
  {
    if status == "PENDING" then Estimate("Expected delivery by ", orderDay + 5)
    else if status == "CONFIRMED" then Estimate("Expected delivery by ", orderDay + 3)
    else if status == "SHIPPED" then Estimate("Arriving ", orderDay + 1)
    else if status == "DELIVERED" then Estimate("Delivered on ", orderDay)
    else NoEstimate
  }

  /** The further an order has progressed, the nearer its estimated day. */
  lemma DeliveryOffsetDecreases(i: nat, j: nat)
    requires i < j < |Steps|
    ensures DeliveryOffset(Steps[i]).value > DeliveryOffset(Steps[j]).value
  {
  }

  /** The name of an item: nested product name, then the flat name, then "Product". */
  function ItemName(item: Item): (r: string)
    ensures r != ""
    ensures item.nestedName.Some? && item.nestedName.value != "" ==> r == item.nestedName.value
  {
    if item.nestedName.Some? && item.nestedName.value != "" then item.nestedName.value
    else if item.productName.Some? && item.productName.value != "" then item.productName.value
    else "Product"
  }

  /** The state after the load effect. */
  datatype LoadState = LoadState(loading: bool, error: Option<string>, order: Option<Order>)

  const NoIdMessage := "No order ID provided"
  const PermissionMessage := "You do not have permission to view this order."
  const LoadFailedMessage := "Failed to load order details. Please try again."

  /** The viewer's permission: the order's own user, or any seller. */
  predicate MayView(o: Order, user: SessionUser.User) {
    o.userId == user.id || user.role == Some("SELLER")
  }

  /**
   * The effect and `fetchOrderDetails`. `hasOrderId` is the route parameter's
   * truthiness. The fetched order is `None` for a null reply. Reading
   * `user.id` with no user throws and lands in the failure message.
   */
  function Load(hasOrderId: bool, user: Option<SessionUser.User>, reply: Outcome<Option<Order>>): (r: LoadState)
    ensures !r.loading
    ensures r.order.Some? ==> r.error.None? && hasOrderId && reply == Returned(r.order) &&
                              user.Some? && MayView(r.order.value, user.value)
    ensures !hasOrderId ==> r.error == Some(NoIdMessage)
    ensures hasOrderId && reply.Threw? ==> r.error == Some(LoadFailedMessage)
    ensures hasOrderId && reply == Returned(None) ==> r == LoadState(false, None, None)
  {
    if !hasOrderId then LoadState(false, Some(NoIdMessage), None)
    else match reply
      case Threw => LoadState(false, Some(LoadFailedMessage), None)
      case Returned(None) => LoadState(false, None, None)
      case Returned(Some(o)) =>
        if user.None? then LoadState(false, Some(LoadFailedMessage), None)
        else if !MayView(o, user.value) then LoadState(false, Some(PermissionMessage), None)
        else LoadState(false, None, Some(o))
  }

  /** The page for a load state, in the order the component checks them. */
  datatype Page =
    | Spinner
    | ErrorAlert(message: string)
    | NotFound
    | Details(order: Order, progress: nat, subtotal: int, total: int)

  function Render(s: LoadState): (r: Page)
    ensures s.loading <==> r.Spinner?
    ensures r.ErrorAlert? <==> !s.loading && s.error.Some?
    ensures r.NotFound? <==> !s.loading && s.error.None? && s.order.None?
    ensures r.Details? ==> r.order == s.order.value && r.subtotal == r.total == CalculateTotal(r.order)
                           && r.progress == ProgressPercentage(r.order.status)
  {
    if s.loading then Spinner
    else if s.error.Some? then ErrorAlert(s.error.value)
    else if s.order.None? then NotFound
    else
      var o := s.order.value;
      Details(o, ProgressPercentage(o.status), CalculateTotal(o), CalculateTotal(o))
  }

  /** A customer who is not the order's owner never sees its details. */
  lemma OthersCannotView(hasOrderId: bool, user: SessionUser.User, o: Order)
    requires o.userId != user.id && user.role != Some("SELLER")
    ensures !Render(Load(hasOrderId, Some(user), Returned(Some(o)))).Details?
    ensures hasOrderId ==> Render(Load(hasOrderId, Some(user), Returned(Some(o)))) == ErrorAlert(PermissionMessage)
  {
  }
}
