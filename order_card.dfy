/** The display rules of one order card in the list. Locale formatting of dates
    and prices is not part of this model: a formatted date is represented by the
    date string it was formatted from. */
module OrderCard {
  import opened Types

  /** The untyped value handed to the date helper: a string, an object that may
      carry a `$date` field (a MongoDB export), or anything else. */
  datatype DateValue =
    | Str(s: string)
    | Obj(date: Option<string>)
    | Other

  /** getDateString: a string is returned as is, an object's truthy `$date` is
      unwrapped, everything else becomes the empty string. */
  function DateString(d: DateValue): (r: string)
    ensures d.Str? ==> r == d.s
    ensures d.Obj? && Truthy(d.date) ==> r == d.date.value
    ensures r != "" ==> (d.Str? || (d.Obj? && Truthy(d.date)))
  {
    match d
    case Str(s) => s
    case Obj(date) => if date.Some? && date.value != "" then date.value else ""
    case Other => ""
  }

  /** DateString never invents a date: it returns one of the strings carried by its input, or "". */
  lemma DateStringFromInput(d: DateValue)
    ensures DateString(d) == "" || (d.Str? && DateString(d) == d.s) || (d.Obj? && Some(DateString(d)) == d.date)
  {
  }

  /** What the card shows after "ETA:": "Not estimated", or a date. */
  datatype Eta = NotEstimated | EstimatedAt(date: string)

  /** getETA: an absent or empty estimate reads "Not estimated"; otherwise the
      estimate itself is formatted. */
  function GetEta(o: Order): (r: Eta)
    ensures r.NotEstimated? <==> !Truthy(o.estimatedDeliveryTime)
    ensures r.EstimatedAt? ==> r.date == DateString(Str(o.estimatedDeliveryTime.value))
  {
    if o.estimatedDeliveryTime.None? || o.estimatedDeliveryTime.value == "" then NotEstimated
    else EstimatedAt(DateString(Str(o.estimatedDeliveryTime.value)))
  }

  /** formatAddress returns the shipping address unchanged. */
  function FormatAddress(shippingAddress: string): (r: string)
    ensures |r| == |shippingAddress| && forall i :: 0 <= i < |r| ==> r[i] == shippingAddress[i]
  {
    shippingAddress
  }

  /** The heading: the order number, or "Order #" and the identifier when the number is empty. */
  function Title(o: Order): (r: string)
    ensures o.orderNumber != "" ==> r == o.orderNumber
    ensures o.orderNumber == "" ==> |r| >= 7 && r[..7] == "Order #" && r[7..] == o.id
  {
    if o.orderNumber != "" then o.orderNumber else "Order #" + o.id
  }

  /** The noun after the item count: singular only for exactly one item. */
  function ItemNoun(count: nat): (r: string)
    ensures r == "item" <==> count == 1
    ensures r == "items" <==> count != 1
  {
    if count == 1 then "item" else "items"
  }

  /** The pair shown as "{count} {noun}" for an order's items. */
  function ItemCount(o: Order): (r: (nat, string))
    ensures r.0 == |o.items|
    ensures r.1 == "item" <==> |o.items| == 1
  {
    (|o.items|, ItemNoun(|o.items|))
  }

  /** An order without items reads "0 items". */
  lemma EmptyOrderReadsZeroItems(o: Order)
    requires o.items == []
    ensures ItemCount(o) == (0, "items")
  {
  }
}
