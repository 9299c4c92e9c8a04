/** The order list: a filter, the query sent for it, the client-side filter of
    what came back, and the empty-state text. */
module OrderList {
  import opened Types

  datatype Filter = All | Only(status: OrderStatus)

  /** The filter as the string the UI compares and prints. */
  function FilterName(f: Filter): string
  {
    match f
    case All => "all"
    case Only(s) => StatusName(s)
  }

  /** The `params` of GET /api/delivery/orders: no status, or one status. */
  datatype Query = NoStatus | WithStatus(status: OrderStatus)

  /** loadOrders' choice of parameters, with its three branches as written: the
      first and the last both send the filter, so only `all` omits the status. */
  function QueryFor(f: Filter): (r: Query)
    ensures r.NoStatus? <==> f.All?
    ensures r.WithStatus? ==> r.status == f.status
  {
    if f == Only(OutForDelivery) || f == Only(Delivered) then WithStatus(f.status)
    else if f == All then NoStatus
    else WithStatus(f.status)
  }

  /** `orders.filter(order => order.status === s)`. Everything kept has status s,
      every copy of an order with status s is kept, and nothing is added. */
  function KeepStatus(orders: seq<Order>, s: OrderStatus): (r: seq<Order>)
    ensures |r| <= |orders|
    ensures forall i :: 0 <= i < |r| ==> r[i].status == s
    ensures forall o :: o in r <==> o in orders && o.status == s
    ensures forall o :: multiset(r)[o] == (if o.status == s then multiset(orders)[o] else 0)
  {
    if orders == [] then []
    else
      assert orders == [orders[0]] + orders[1..];
      if orders[0].status == s then [orders[0]] + KeepStatus(orders[1..], s)
      else KeepStatus(orders[1..], s)
  }

  /** filteredOrders: the fetched list itself for `all`, else the orders with that status. */
  function Displayed(orders: seq<Order>, f: Filter): (r: seq<Order>)
    ensures f.All? ==> r == orders
    ensures f.Only? ==> forall i :: 0 <= i < |r| ==> r[i].status == f.status
    ensures f.Only? ==> forall o :: multiset(r)[o] == (if o.status == f.status then multiset(orders)[o] else 0)
  {
    if f.All? then orders else KeepStatus(orders, f.status)
  }

  /** a is b with some elements left out, the rest in their original order. */
  predicate IsSubsequence(a: seq<Order>, b: seq<Order>)
  {
    if a == [] then true
    else if b == [] then false
    else if a[0] == b[0] then IsSubsequence(a[1..], b[1..])
    else IsSubsequence(a, b[1..])
  }

  lemma {:induction false} KeepStatusIsSubsequence(orders: seq<Order>, s: OrderStatus)
    ensures IsSubsequence(KeepStatus(orders, s), orders)
  {
    if orders != [] {
      KeepStatusIsSubsequence(orders[1..], s);
      if orders[0].status != s {
        var k := KeepStatus(orders[1..], s);
        if k != [] {
          assert k[0] in orders[1..];
          SubsequenceHeadDiffers(k, orders, s);
        }
      }
    }
  }

  /** Prepending an element that k does not start with keeps k a subsequence. */
  lemma SubsequenceHeadDiffers(k: seq<Order>, orders: seq<Order>, s: OrderStatus)
    requires orders != [] && k != [] && orders[0].status != s && k[0].status == s
    requires IsSubsequence(k, orders[1..])
    ensures IsSubsequence(k, orders)
  {
  }

  /** Filtering twice is filtering once. */
  lemma {:induction false} KeepStatusIdempotent(orders: seq<Order>, s: OrderStatus)
    ensures KeepStatus(KeepStatus(orders, s), s) == KeepStatus(orders, s)
  {
    if orders != [] {
      KeepStatusIdempotent(orders[1..], s);
      if orders[0].status == s {
        var k := KeepStatus(orders[1..], s);
        assert ([orders[0]] + k)[1..] == k;
      }
    }
  }

  /** When the server honours the status query, the client-side filter keeps
      the fetched list as it is. */
  lemma {:induction false} KeepStatusOfMatchingList(orders: seq<Order>, s: OrderStatus)
    requires forall i :: 0 <= i < |orders| ==> orders[i].status == s
    ensures KeepStatus(orders, s) == orders
  {
    if orders != [] {
      var rest := orders[1..];
      assert forall i :: 0 <= i < |rest| ==> rest[i] == orders[i + 1];
      KeepStatusOfMatchingList(rest, s);
      assert [orders[0]] + rest == orders;
    }
  }

  /** The displayed list: the fetched list for `all`, an order-preserving part
      of it otherwise, and stable under a second application. */
  lemma DisplayedProperties(orders: seq<Order>, f: Filter)
    ensures f.All? ==> Displayed(orders, f) == orders
    ensures IsSubsequence(Displayed(orders, f), orders)
    ensures Displayed(Displayed(orders, f), f) == Displayed(orders, f)
  {
    if f.All? {
      SubsequenceReflexive(orders);
    } else {
      KeepStatusIsSubsequence(orders, f.status);
      KeepStatusIdempotent(orders, f.status);
    }
  }

  lemma {:induction false} SubsequenceReflexive(a: seq<Order>)
    ensures IsSubsequence(a, a)
  {
    if a != [] {
      SubsequenceReflexive(a[1..]);
    }
  }

  /** With a server that answers the query it was sent, what is displayed is
      exactly what was fetched, whichever filter is chosen. */
  lemma DisplayedWhenServerHonoursQuery(orders: seq<Order>, f: Filter)
    requires QueryFor(f).WithStatus? ==> forall i :: 0 <= i < |orders| ==> orders[i].status == QueryFor(f).status
    ensures Displayed(orders, f) == orders
  {
    if f.Only? {
      KeepStatusOfMatchingList(orders, f.status);
    }
  }

  datatype FilterButton = FilterButton(text: string, value: Filter)

  /** The filter bar, left to right. */
  function FilterButtons(): seq<FilterButton>
  {
    [ FilterButton("All", All),
      FilterButton("Ready", Only(ReadyForPickup)),
      FilterButton("Picked Up", Only(OutForDelivery)),
      FilterButton("Delivered", Only(Delivered)) ]
  }

  /** The buttons' values serve as React keys and as filters: they are distinct,
      and `all` is the only one without a status. */
  lemma FilterButtonsDistinct()
    ensures forall i, j :: 0 <= i < j < |FilterButtons()| ==> FilterButtons()[i].value != FilterButtons()[j].value
    ensures forall i :: 0 <= i < |FilterButtons()| ==> (FilterButtons()[i].value.All? <==> i == 0)
  {
  }

  const NoOrdersAtAll: string := "There are no orders in the system."
  const NoOrdersPrefix: string := "There are no orders with "
  const NoOrdersSuffix: string := " status."

  /** The empty-state line: one sentence for `all`, another naming the filter. */
  function EmptyMessage(f: Filter): (r: string)
    ensures f.All? ==> r == NoOrdersAtAll
    ensures f.Only? ==>
      && |r| == |NoOrdersPrefix| + |StatusName(f.status)| + |NoOrdersSuffix|
      && r[..|NoOrdersPrefix|] == NoOrdersPrefix
      && r[|NoOrdersPrefix|..|r| - |NoOrdersSuffix|] == StatusName(f.status)
      && r[|r| - |NoOrdersSuffix|..] == NoOrdersSuffix
    ensures f.Only? ==> r == "There are no orders with " + StatusName(f.status) + " status."
  {
    if f.All? then NoOrdersAtAll
    else NoOrdersPrefix + FilterName(f) + NoOrdersSuffix
  }

  /** The empty-state line tells the filters apart. */
  lemma EmptyMessageInjective(f: Filter, g: Filter)
    ensures EmptyMessage(f) == EmptyMessage(g) ==> f == g
  {
    if EmptyMessage(f) == EmptyMessage(g) {
      if f.Only? && g.Only? {
        assert StatusName(f.status) == StatusName(g.status);
        assert ParseStatus(StatusName(f.status)) == Some(f.status);
      }
    }
  }

  datatype ListState = ListState(orders: seq<Order>, loading: bool, filter: Filter)

  function Initial(): ListState
  {
    ListState([], true, All)
  }

  /** loadOrders: on success the fetched list replaces the held one; on
      failure the held list stays; `loading` ends false either way. */
  function AfterLoad(st: ListState, reply: Outcome<seq<Order>>): (r: ListState)
    ensures !r.loading && r.filter == st.filter
    ensures r.orders == (if reply.Success? then reply.value else st.orders)
  {
    match reply
    case Success(fetched) => st.(orders := fetched, loading := false)
    case Failure(_) => st.(loading := false)
  }

  datatype ListView = Spinner | Empty(message: string) | Cards(orders: seq<Order>)

  /** The spinner while loading, else the empty-state line, else one card per displayed order. */
  function View(st: ListState): (r: ListView)
    ensures r.Spinner? <==> st.loading
    ensures r.Empty? ==> Displayed(st.orders, st.filter) == [] && r.message == EmptyMessage(st.filter)
    ensures r.Cards? ==> r.orders == Displayed(st.orders, st.filter) && r.orders != []
  {
    if st.loading then Spinner
    else if |Displayed(st.orders, st.filter)| == 0 then Empty(EmptyMessage(st.filter))
    else Cards(Displayed(st.orders, st.filter))
  }

  /** A first load that fails shows the empty state for `all`. */
  lemma FirstLoadFailureShowsEmpty(e: GatewayError)
    ensures View(AfterLoad(Initial(), Failure(e))) == Empty(NoOrdersAtAll)
  {
  }

  class OrderListView {
    var orders: seq<Order>
    var loading: bool
    var filter: Filter
    /** Every value written to `loading`, oldest first. */
    ghost var loadingLog: seq<bool>

    function State(): ListState
      reads this
    {
      ListState(orders, loading, filter)
    }

    constructor ()
      ensures State() == Initial() && loadingLog == []
    {
      orders := [];
      loading := true;
      filter := All;
      loadingLog := [];
    }

    /** loadOrders for the current filter; returns the query it sent. */
    method LoadOrders(reply: Outcome<seq<Order>>) returns (q: Query)
      modifies this`orders, this`loading, this`loadingLog
      ensures q == QueryFor(filter)
      ensures State() == AfterLoad(old(State()), reply)
      ensures loadingLog == old(loadingLog) + [true, false]
    {
      loading := true;
      loadingLog := loadingLog + [true];
      q := QueryFor(filter);
      match reply {
        case Success(fetched) => orders := fetched;
        case Failure(_) =>
      }
      loading := false;
      loadingLog := loadingLog + [false];
    }

    /** A filter button press. The load effect depends on the filter, so it runs
        again only when the filter actually changes. */
    method SelectFilter(f: Filter, reply: Outcome<seq<Order>>) returns (q: Option<Query>)
      modifies this
      ensures filter == f
      ensures old(filter) == f ==> q == None && State() == old(State()) && loadingLog == old(loadingLog)
      ensures old(filter) != f ==>
        && q == Some(QueryFor(f)) && State() == AfterLoad(old(State()).(filter := f), reply)
        && loadingLog == old(loadingLog) + [true, false]
    {
      if f == filter {
        q := None;
      } else {
        filter := f;
        var sent := LoadOrders(reply);
        q := Some(sent);
      }
    }
  }
}
