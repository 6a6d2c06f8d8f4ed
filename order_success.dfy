/**
 * The order confirmation page (OrderSuccess.jsx): where the order id comes
 * from, the fetch it triggers, and the page shown for each state.
 */
module OrderSuccess {
  import opened Wrappers
  import opened OrderView

  /** The id the page works with: from navigation state, from the query string, or none. */
  datatype OrderId = FromState(number: int) | FromQuery(text: string) | NoOrderId

  /**
   * `location.state?.orderId || params.get('orderId')`: a navigation-state id
   * wins when it is truthy (non-zero); otherwise the query parameter counts
   * when it is truthy (non-empty).
   */
  function ResolveOrderId(stateOrderId: Option<int>, queryOrderId: Option<string>): (r: OrderId)
    ensures stateOrderId.Some? && stateOrderId.value != 0 ==> r == FromState(stateOrderId.value)
    ensures (stateOrderId.None? || stateOrderId.value == 0) ==>
              r == (if queryOrderId.Some? && queryOrderId.value != "" then FromQuery(queryOrderId.value) else NoOrderId)
  {
    if stateOrderId.Some? && stateOrderId.value != 0 then FromState(stateOrderId.value)
    else if queryOrderId.Some? && queryOrderId.value != "" then FromQuery(queryOrderId.value)
    else NoOrderId
  }

  /** The state after the effect: loading ended, an error or the fetched order (null is `None`). */
  datatype State = State(loading: bool, error: Option<string>, order: Option<Order>)

  const LoadFailedMessage := "Failed to load order details. The order may still be processing."

  /** The state before the effect has run. */
  const Initial := State(true, None, None)

  /** The effect: fetch only with an id; a failure records the error and leaves the order null. */
  function AfterLoad(id: OrderId, reply: Outcome<Option<Order>>): (r: State)
    ensures !r.loading
    ensures id.NoOrderId? ==> r == State(false, None, None)
    ensures !id.NoOrderId? && reply.Threw? ==> r == State(false, Some(LoadFailedMessage), None)
    ensures !id.NoOrderId? && reply.Returned? ==> r == State(false, None, reply.value)
  {
    if id.NoOrderId? then State(false, None, None)
    else match reply
      case Threw => State(false, Some(LoadFailedMessage), None)
      case Returned(o) => State(false, None, o)
  }

  /** The pages, in the order the component checks for them. */
  datatype Page =
    | Spinner
    | ErrorCard(message: string)
    | GenericThanks
    | Confirmation(order: Option<Order>, total: int, badge: string)

  function Render(id: OrderId, s: State): (r: Page)
    ensures s.loading ==> r == Spinner
    ensures !s.loading && s.error.Some? ==> r == ErrorCard(s.error.value)
    ensures !s.loading && s.error.None? && id.NoOrderId? ==> r == GenericThanks
    ensures r.Confirmation? <==> !s.loading && s.error.None? && !id.NoOrderId?
    ensures r.Confirmation? ==> r.order == s.order
    ensures r.Confirmation? && s.order.Some? ==>
              r.total == CalculateTotal(s.order.value) && r.badge == StatusBadgeColor(s.order.value.status)
  {
    if s.loading then Spinner
    else if s.error.Some? then ErrorCard(s.error.value)
    else if id.NoOrderId? then GenericThanks
    else match s.order
      case None => Confirmation(None, 0, "")
      case Some(o) => Confirmation(s.order, CalculateTotal(o), StatusBadgeColor(o.status))
  }

  /** Without an id nothing is fetched and the generic thank-you page shows, whatever a fetch would have returned. */
  lemma NoIdShowsThanks(reply: Outcome<Option<Order>>)
    ensures Render(NoOrderId, AfterLoad(NoOrderId, reply)) == GenericThanks
  {
  }

  /** A failed fetch shows the error card, never the confirmation. */
  lemma FailedFetchShowsError(id: OrderId)
    requires !id.NoOrderId?
    ensures Render(id, AfterLoad(id, Threw)) == ErrorCard(LoadFailedMessage)
  {
  }

  /** The first render, before the effect, is the spinner. */
  lemma FirstRenderIsSpinner(id: OrderId)
    ensures Render(id, Initial) == Spinner
  {
  }

  /** The item name on this page: the flat name first, then the nested one, then "Product". */
  function ItemName(item: Item): (r: string)
    ensures r != ""
    ensures item.productName.Some? && item.productName.value != "" ==> r == item.productName.value
  {
    if item.productName.Some? && item.productName.value != "" then item.productName.value
    else if item.nestedName.Some? && item.nestedName.value != "" then item.nestedName.value
    else "Product"
  }
}
