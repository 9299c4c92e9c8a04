/** The order detail panel: which delivery actions are offered for a status,
    which notices are shown, the confirmation after a status change, and the
    handler that sends the change and reports the server's order back. */
module OrderDetails {
  import opened Types

  // ---------------------------------------------------------------------------
  // The "Delivery Actions" block, as the four JSX expressions it is made of.
  // ---------------------------------------------------------------------------

  datatype Action = PickUp | MarkDelivered | CancelDelivery

  /** The status each button requests: Pick Up moves the order out for
      delivery, and the other two end it. */
  function Target(a: Action): (r: OrderStatus)
    ensures a == PickUp ==> r == OutForDelivery
    ensures a == MarkDelivered ==> r == Delivered
    ensures a == CancelDelivery ==> r == Cancelled
    ensures IsTerminal(r) <==> a != PickUp
  {
    match a
    case PickUp => OutForDelivery
    case MarkDelivered => Delivered
    case CancelDelivery => Cancelled
  }

  /** A rendered element of the block: a group of buttons or a line of text. */
  datatype Node = Buttons(actions: seq<Action>) | Note(text: string)

  /** The value of a JSX child expression: a boolean (which React renders as
      nothing) or an element. */
  datatype Jsx = Bool(b: bool) | Elem(node: Node)

  /** JavaScript `c && e`: the element when c holds, otherwise `false`. */
  function And(c: bool, e: Node): Jsx
  {
    if c then Elem(e) else Bool(false)
  }

  /** JavaScript `c || rest`: `true` when c holds, otherwise `rest`. */
  function Or(c: bool, rest: Jsx): Jsx
  {
    if c then Bool(true) else rest
  }

  const NotReadyText: string := "This order is not ready for pickup yet."

  /** "This order is already {status}.", naming the raw status. */
  function AlreadyText(s: OrderStatus): (r: string)
  {
    "This order is already " + StatusName(s) + "."
  }

  /** The four children of the block, in order. */
  datatype Panel = Panel(pickUp: Jsx, deliver: Jsx, already: Jsx, notReady: Jsx)

  /** `status === "pending" || (status === "being_packed" && <note>)`, as written. */
  function NotReadyBlock(s: OrderStatus): (j: Jsx)
    ensures j == Bool(true) <==> s == Pending
    ensures NotesIn(j) == [NotReadyText] <==> s == BeingPacked
    ensures ActionsIn(j) == []
  {
    Or(s == Pending, And(s == BeingPacked, Note(NotReadyText)))
  }

  /** The block's four children. Buttons come only from the first two, text
      lines only from the last two, and at most one child renders anything. */
  function DeliveryPanel(s: OrderStatus): (p: Panel)
    ensures NotesIn(p.pickUp) == [] && NotesIn(p.deliver) == []
    ensures ActionsIn(p.already) == [] && ActionsIn(p.notReady) == []
    ensures p.pickUp.Elem? ==> p.deliver.Bool? && p.already.Bool? && p.notReady.Bool?
    ensures p.deliver.Elem? ==> p.pickUp.Bool? && p.already.Bool? && p.notReady.Bool?
    ensures p.already.Elem? ==> p.pickUp.Bool? && p.deliver.Bool? && p.notReady.Bool?
  {
    Panel(
      And(s == ReadyForPickup, Buttons([PickUp])),
      And(s == OutForDelivery, Buttons([MarkDelivered, CancelDelivery])),
      And(s == Delivered || s == Cancelled, Note(AlreadyText(s))),
      NotReadyBlock(s))
  }

  function ActionsIn(j: Jsx): seq<Action>
  {
    if j.Elem? && j.node.Buttons? then j.node.actions else []
  }

  function NotesIn(j: Jsx): seq<string>
  {
    if j.Elem? && j.node.Note? then [j.node.text] else []
  }

  /** The buttons on screen for an order in status s, top to bottom. No action
      is offered from a terminal status, every action moves the order strictly
      forward in the lifecycle, and no action appears twice. */
  function OfferedActions(s: OrderStatus): (r: seq<Action>)
    ensures IsTerminal(s) ==> r == []
    ensures forall i :: 0 <= i < |r| ==> Rank(Target(r[i])) > Rank(s)
    ensures forall i, j :: 0 <= i < j < |r| ==> r[i] != r[j]
  {
    var p := DeliveryPanel(s);
    assert ActionsIn(p.already) == [] && ActionsIn(p.notReady) == [];
    var r := ActionsIn(p.pickUp) + ActionsIn(p.deliver) + ActionsIn(p.already) + ActionsIn(p.notReady);
    assert r == ActionsIn(p.pickUp) + ActionsIn(p.deliver);
    r
  }

  /** The text lines on screen for an order in status s, top to bottom. */
  function Notices(s: OrderStatus): (r: seq<string>)
    ensures |r| <= 1
    ensures IsTerminal(s) ==> r == [AlreadyText(s)]
    ensures !IsTerminal(s) ==> AlreadyText(s) !in r
  {
    var p := DeliveryPanel(s);
    assert NotReadyText[14] != AlreadyText(s)[14];
    NotesIn(p.pickUp) + NotesIn(p.deliver) + NotesIn(p.already) + NotesIn(p.notReady)
  }

  /** The buttons of the block, status by status. */
  lemma ActionsByStatus()
    ensures OfferedActions(ReadyForPickup) == [PickUp]
    ensures OfferedActions(OutForDelivery) == [MarkDelivered, CancelDelivery]
    ensures OfferedActions(Pending) == [] && OfferedActions(OrderConfirmed) == []
    ensures OfferedActions(BeingPacked) == []
    ensures OfferedActions(Delivered) == [] && OfferedActions(Cancelled) == []
  {
  }

  /** The text lines of the block, status by status. */
  lemma NoticesByStatus()
    ensures Notices(Delivered) == [AlreadyText(Delivered)] && Notices(Cancelled) == [AlreadyText(Cancelled)]
    ensures Notices(BeingPacked) == [NotReadyText]
    ensures Notices(Pending) == [] && Notices(OrderConfirmed) == []
    ensures Notices(ReadyForPickup) == [] && Notices(OutForDelivery) == []
  {
  }

  /** The sentence names the status between a fixed opening and a full stop. */
  lemma AlreadyTextNamesStatus(s: OrderStatus)
    ensures |AlreadyText(s)| == 23 + |StatusName(s)| && AlreadyText(s)[|AlreadyText(s)| - 1] == '.'
    ensures AlreadyText(s)[..22] == "This order is already "
    ensures AlreadyText(s)[22..|AlreadyText(s)| - 1] == StatusName(s)
  {
  }

  lemma AlreadyTextByStatus()
    ensures AlreadyText(Delivered) == "This order is already delivered."
    ensures AlreadyText(Cancelled) == "This order is already cancelled."
  {
  }

  /** Only the two statuses that have buttons offer anything, and the targets
      are exactly the lifecycle's next steps. */
  lemma ActionsOnlyWhenActionable(s: OrderStatus)
    ensures OfferedActions(s) != [] <==> s == ReadyForPickup || s == OutForDelivery
    ensures s == ReadyForPickup ==> |OfferedActions(s)| == 1 && Target(OfferedActions(s)[0]) == OutForDelivery
    ensures s == OutForDelivery ==>
      |OfferedActions(s)| == 2 && Target(OfferedActions(s)[0]) == Delivered && Target(OfferedActions(s)[1]) == Cancelled
  {
  }

  /** The "not ready" line, as written: the `||` yields `true` for pending, and
      `true` renders nothing, so only being_packed shows the line. */
  lemma NotReadyShownOnlyForBeingPacked(s: OrderStatus)
    ensures NotReadyText in Notices(s) <==> s == BeingPacked
    ensures NotReadyBlock(Pending) == Bool(true) && Notices(Pending) == []
  {
  }

  /** The grouping the layout evidently intends: `(pending || being_packed) && <note>`. */
  function IntendedNotReadyBlock(s: OrderStatus): (j: Jsx)
    ensures NotesIn(j) == [NotReadyText] <==> s == Pending || s == BeingPacked
    ensures ActionsIn(j) == []
  {
    And(s == Pending || s == BeingPacked, Note(NotReadyText))
  }

  /** The block with the intended grouping. */
  function IntendedNotices(s: OrderStatus): (r: seq<string>)
    ensures |r| <= 1
    ensures IsTerminal(s) ==> r == [AlreadyText(s)]
    ensures r == [NotReadyText] <==> s == Pending || s == BeingPacked
  {
    var p := DeliveryPanel(s).(notReady := IntendedNotReadyBlock(s));
    NotesIn(p.pickUp) + NotesIn(p.deliver) + NotesIn(p.already) + NotesIn(p.notReady)
  }

  /** With the intended grouping, pending and being_packed both say "not ready",
      and the two blocks differ on pending alone. */
  lemma IntendedNoticeCoversPendingAndBeingPacked(s: OrderStatus)
    ensures NotReadyText in IntendedNotices(s) <==> s == Pending || s == BeingPacked
    ensures IntendedNotices(s) != Notices(s) <==> s == Pending
  {
  }

  // ---------------------------------------------------------------------------
  // Customer contact line.
  // ---------------------------------------------------------------------------

  datatype Contact = CannotContact(text: string) | CallLink(href: string, shown: string)

  /** The apology as the component spells it. Its last four characters
      (U+00F0 U+0178 U+02DC U+00A7) are what the UTF-8 bytes of the emoji
      U+1F627 become when read as Windows-1252, and they render as such. */
  const NoPhoneText: string := "Sorry you can't contact to user \U{F0}\U{178}\U{2DC}\U{A7}"

  /** A missing phone gives an apology instead of a `tel:` link. */
  function ContactLine(c: Customer): (r: Contact)
    ensures r.CannotContact? <==> c.phone == ""
    ensures r.CannotContact? ==> r.text == "Sorry you can't contact to user \U{F0}\U{178}\U{2DC}\U{A7}"
    ensures r.CallLink? ==> r.shown == c.phone && r.href == "tel:" + c.phone
  {
    if c.phone == "" then CannotContact(NoPhoneText)
    else CallLink("tel:" + c.phone, c.phone)
  }

  // ---------------------------------------------------------------------------
  // Status change.
  // ---------------------------------------------------------------------------

  const GenericSuccess: string := "Order updated successfully!"

  /** The confirmation toast, chosen by the requested status alone: a specific
      message for each of the three statuses a button requests, the generic one
      for any other. */
  function SuccessMessage(target: OrderStatus): (r: string)
    ensures r == GenericSuccess <==> !(target == OutForDelivery || target == Delivered || target == Cancelled)
    ensures target == OutForDelivery ==> r == "Order picked up! Start delivering."
    ensures target == Delivered ==> r == "Order delivered successfully!"
    ensures target == Cancelled ==> r == "Order delivery cancelled."
  {
    if target == OutForDelivery then "Order picked up! Start delivering."
    else if target == Delivered then "Order delivered successfully!"
    else if target == Cancelled then "Order delivery cancelled."
    else GenericSuccess
  }

  /** Every button the panel offers gets its own confirmation; the generic one is
      reachable only by requesting a status no button requests. */
  lemma OfferedActionsHaveSpecificMessages(s: OrderStatus, i: nat)
    requires i < |OfferedActions(s)|
    ensures SuccessMessage(Target(OfferedActions(s)[i])) != GenericSuccess
  {
  }

  lemma SuccessMessagesDistinct(a: Action, b: Action)
    ensures SuccessMessage(Target(a)) == SuccessMessage(Target(b)) ==> a == b
  {
  }

  /** The body of the PUT to /api/delivery/orders/:id/status. */
  datatype StatusRequest = StatusRequest(orderId: string, status: OrderStatus)

  /** The detail component's own state: the order it was given and its loading flag. */
  class DetailsView {
    var order: Order
    var loading: bool
    /** Every value written to `loading`, oldest first. */
    ghost var loadingLog: seq<bool>

    constructor (order: Order)
      ensures this.order == order && !loading && loadingLog == []
    {
      this.order := order;
      loading := false;
      loadingLog := [];
    }

    /** The parent re-renders the component with a new order; the loading state is kept. */
    method ReceiveOrder(o: Order)
      modifies this`order
      ensures order == o
    {
      order := o;
    }

    /** handleStatusUpdate: raise `loading`, send the request, hand the server's
        order to the parent (the callback's argument, None when it is not
        called) and toast a message on success, and lower `loading` in every case. */
    method HandleStatusUpdate(newStatus: OrderStatus, reply: Outcome<StatusReply>)
      returns (request: StatusRequest, callback: Option<Order>, toast: Option<string>)
      modifies this`loading, this`loadingLog
      ensures request == StatusRequest(order.id, newStatus)
      ensures reply.Success? ==> callback == Some(reply.value.order) && toast == Some(SuccessMessage(newStatus))
      ensures reply.Failure? ==> callback == None && toast == None
      ensures !loading && loadingLog == old(loadingLog) + [true, false]
    {
      loading := true;
      loadingLog := loadingLog + [true];
      request := StatusRequest(order.id, newStatus);
      match reply {
        case Success(body) =>
          callback := Some(body.order);
          toast := Some(SuccessMessage(newStatus));
        case Failure(_) =>
          callback := None;
          toast := None;
      }
      loading := false;
      loadingLog := loadingLog + [false];
    }
  }

  /** The `{ order }` body the status endpoint answers with. */
  datatype StatusReply = StatusReply(order: Order)
}
