/** The order detail page: it fetches one order by the id in the route, holds
    it, and replaces it with whatever the detail panel reports back. */
module OrderDetailsPage {
  import opened Types
  import OrderDetails

  /** The `{ order }` body of GET /api/delivery/orders/:id; `order` is None when the
      body has no such field. */
  datatype OrderBody = OrderBody(order: Option<Order>)

  /** What the fetch resolves to: a rejection, or a body that may be falsy (None). */
  datatype FetchReply = Rejected | Resolved(body: Option<OrderBody>)

  datatype PageState = PageState(order: Option<Order>, loading: bool, error: Option<string>)

  /** Nothing held, loading, no error. */
  function Initial(): PageState
  {
    PageState(None, true, None)
  }

  const NotFound: string := "Order not found"
  const LoadFailed: string := "Failed to load order details"

  /** The getOrder effect: a falsy body sets "Order not found", a rejection sets
      "Failed to load order details", otherwise the body's order is held; the
      `finally` lowers `loading` on every path. Nothing else is reset, so an
      earlier error or order survives. */
  function AfterFetch(st: PageState, reply: FetchReply): (r: PageState)
    ensures !r.loading
    ensures reply.Rejected? ==> r == st.(loading := false, error := Some(LoadFailed))
    ensures reply.Resolved? && reply.body.None? ==> r == st.(loading := false, error := Some(NotFound))
    ensures reply.Resolved? && reply.body.Some? ==> r.order == reply.body.value.order && r.error == st.error
  {
    match reply
    case Rejected => st.(error := Some(LoadFailed), loading := false)
    case Resolved(body) =>
      if body.None? then st.(error := Some(NotFound), loading := false)
      else st.(order := body.value.order, loading := false)
  }

  /** handleStatusUpdate: the held order is replaced wholesale by the argument. */
  function AfterStatusUpdate(st: PageState, updated: Order): (r: PageState)
    ensures r.order == Some(updated)
    ensures r.loading == st.loading && r.error == st.error
  {
    st.(order := Some(updated))
  }

  datatype PageView = Spinner | ErrorView(message: string) | Details(order: Order)

  /** What the page renders: the spinner while loading; then the error view when
      there is an error or no order, showing the error or "Order not found";
      otherwise the detail panel for the held order. */
  function View(st: PageState): (r: PageView)
    ensures r.Spinner? <==> st.loading
    ensures r.Details? <==> !st.loading && !Truthy(st.error) && st.order.Some?
    ensures r.Details? ==> r.order == st.order.value
    ensures r.ErrorView? ==> r.message == (if Truthy(st.error) then st.error.value else NotFound)
  {
    if st.loading then Spinner
    else if (st.error.Some? && st.error.value != "") || st.order.None? then
      ErrorView(if st.error.Some? && st.error.value != "" then st.error.value else NotFound)
    else Details(st.order.value)
  }

  /** A first load ends on exactly one of three screens. */
  lemma FirstLoadOutcomes(reply: FetchReply, o: Order)
    ensures reply == Rejected ==> View(AfterFetch(Initial(), reply)) == ErrorView(LoadFailed)
    ensures reply == Resolved(None) ==> View(AfterFetch(Initial(), reply)) == ErrorView(NotFound)
    ensures reply == Resolved(Some(OrderBody(None))) ==> View(AfterFetch(Initial(), reply)) == ErrorView(NotFound)
    ensures reply == Resolved(Some(OrderBody(Some(o)))) ==> View(AfterFetch(Initial(), reply)) == Details(o)
  {
  }

  /** The effect re-runs when the route's id changes but never clears `error`:
      after one failed load, a later successful load still shows the old error. */
  lemma StaleErrorHidesLaterOrder(st: PageState, o: Order)
    requires Truthy(st.error)
    ensures View(AfterFetch(st, Resolved(Some(OrderBody(Some(o)))))) == ErrorView(st.error.value)
  {
  }

  /** Once the details are on screen, a status update shows exactly the order
      the server returned, including fields the client did not ask to change. */
  lemma UpdateShowsServerOrder(st: PageState, updated: Order)
    requires View(st).Details?
    ensures View(AfterStatusUpdate(st, updated)) == Details(updated)
  {
  }

  class DetailsPage {
    const id: string
    var order: Option<Order>
    var loading: bool
    var error: Option<string>

    function State(): PageState
      reads this
    {
      PageState(order, loading, error)
    }

    constructor (id: string)
      ensures this.id == id && State() == Initial()
    {
      this.id := id;
      order := None;
      loading := true;
      error := None;
    }

    /** The getOrder effect; returns the id it asked the server for. */
    method GetOrder(reply: FetchReply) returns (requested: string)
      modifies this
      ensures requested == id
      ensures State() == AfterFetch(old(State()), reply)
    {
      requested := id;
      match reply {
        case Rejected =>
          error := Some(LoadFailed);
        case Resolved(body) =>
          if body.None? {
            error := Some(NotFound);
          } else {
            order := body.value.order;
          }
      }
      loading := false;
    }

    method HandleStatusUpdate(updated: Order)
      modifies this
      ensures State() == AfterStatusUpdate(old(State()), updated)
    {
      order := Some(updated);
    }

    /** A button press in the panel shown for the held order: the panel sends
        the request, and on success its callback replaces the held order, which
        is re-rendered into the panel. On failure nothing held changes. */
    method ChangeStatus(view: OrderDetails.DetailsView, newStatus: OrderStatus, reply: Outcome<OrderDetails.StatusReply>)
      returns (request: OrderDetails.StatusRequest, toast: Option<string>)
      requires View(State()).Details? && view.order == order.value
      modifies this, view
      ensures request == OrderDetails.StatusRequest(old(order).value.id, newStatus)
      ensures reply.Success? ==> State() == AfterStatusUpdate(old(State()), reply.value.order)
      ensures reply.Failure? ==> State() == old(State())
      ensures view.order == order.value && !view.loading
      ensures view.loadingLog == old(view.loadingLog) + [true, false]
    {
      var callback;
      request, callback, toast := view.HandleStatusUpdate(newStatus, reply);
      if callback.Some? {
        HandleStatusUpdate(callback.value);
        view.ReceiveOrder(callback.value);
      }
    }
  }
}
