/** Shared shapes of the delivery dashboard: the order lifecycle, orders, users,
    and the abstract outcome of a call to the remote service. */
module Types {

  datatype Option<+T> = None | Some(value: T)

  /** The seven values of the status string union, in lifecycle order. */
  datatype OrderStatus =
    | Pending
    | OrderConfirmed
    | BeingPacked
    | ReadyForPickup
    | OutForDelivery
    | Delivered
    | Cancelled

  /** The string the server and the UI use for a status. Distinct statuses have
      distinct names: the name parses back to the status. */
  function StatusName(s: OrderStatus): (r: string)
    ensures ParseStatus(r) == Some(s)
  {
    match s
    case Pending => "pending"
    case OrderConfirmed => "order_confirmed"
    case BeingPacked => "being_packed"
    case ReadyForPickup => "ready_for_pickup"
    case OutForDelivery => "out_for_delivery"
    case Delivered => "delivered"
    case Cancelled => "cancelled"
  }

  /** Which strings are valid statuses: exactly the seven names, nothing else. */
  function ParseStatus(raw: string): Option<OrderStatus>
  {
    if raw == "pending" then Some(Pending)
    else if raw == "order_confirmed" then Some(OrderConfirmed)
    else if raw == "being_packed" then Some(BeingPacked)
    else if raw == "ready_for_pickup" then Some(ReadyForPickup)
    else if raw == "out_for_delivery" then Some(OutForDelivery)
    else if raw == "delivered" then Some(Delivered)
    else if raw == "cancelled" then Some(Cancelled)
    else None
  }

  lemma ParseStatusOnlyNames(raw: string)
    ensures ParseStatus(raw).Some? <==> exists s :: StatusName(s) == raw
    ensures ParseStatus(raw).Some? ==> StatusName(ParseStatus(raw).value) == raw
  {
    if ParseStatus(raw).Some? {
      assert StatusName(ParseStatus(raw).value) == raw;
    }
  }

  /** Position in the lifecycle pending -> ... -> out_for_delivery -> {delivered | cancelled}. */
  function Rank(s: OrderStatus): nat
  {
    match s
    case Pending => 0
    case OrderConfirmed => 1
    case BeingPacked => 2
    case ReadyForPickup => 3
    case OutForDelivery => 4
    case Delivered => 5
    case Cancelled => 5
  }

  predicate IsTerminal(s: OrderStatus)
  {
    s == Delivered || s == Cancelled
  }

  /** The terminal statuses are exactly the last rank of the lifecycle. */
  lemma TerminalIsLastRank(s: OrderStatus)
    ensures IsTerminal(s) <==> (forall t :: Rank(t) <= Rank(s))
  {
    if !IsTerminal(s) {
      assert Rank(s) < Rank(Delivered);
    }
  }

  datatype Customer = Customer(
    id: string,
    name: string,
    email: string,
    phone: string,
    shippingAddress: string)

  /** Coordinates are JavaScript numbers; they are carried, never computed with. */
  datatype Address = Address(
    street: string,
    city: string,
    state: string,
    zipCode: string,
    latitude: real,
    longitude: real)

  /** Snapshot of a product taken when the order was placed. */
  datatype Product = Product(id: string, name: string, images: seq<string>)

  datatype Item = Item(product: Product, quantity: int)

  /** Only estimatedDeliveryTime and notes are optional. */
  datatype Order = Order(
    id: string,
    orderNumber: string,
    customer: Customer,
    address: Address,
    items: seq<Item>,
    status: OrderStatus,
    createdAt: string,
    estimatedDeliveryTime: Option<string>,
    notes: Option<string>,
    totalAmount: real)

  datatype User = User(
    id: string,
    fullName: string,
    email: string,
    phone: string,
    vehicle: Option<string>)

  /** The body of a failed HTTP response, when there is one (an object, so truthy). */
  datatype ErrorBody = ErrorBody(message: Option<string>)

  /** A rejected call: the server's error body if it sent one, and the transport error's own message. */
  datatype GatewayError = GatewayError(responseData: Option<ErrorBody>, message: string)

  /** What a remote call resolves to. */
  datatype Outcome<+T> = Success(value: T) | Failure(error: GatewayError)

  /** The `message` property of a thrown value; absent when the value has none. */
  datatype Thrown = Thrown(message: Option<string>)

  /** JavaScript truthiness of an optional string: present and non-empty. */
  predicate Truthy(s: Option<string>)
  {
    s.Some? && s.value != ""
  }

  /** `s.length` in JavaScript: UTF-16 code units, two for a character outside the BMP. */
  function Utf16Length(s: string): (n: nat)
    ensures |s| <= n <= 2 * |s|
    ensures n == 0 <==> s == []
  {
    if s == [] then 0
    else (if s[0] as int >= 0x1_0000 then 2 else 1) + Utf16Length(s[1..])
  }
}
