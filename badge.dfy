/** The status badge: a colour class and a label for a status. Both switches
    compare the status STRING, and each carries two cases, 'ready' and
    'picked-up', that no status name equals. */
module Badge {
  import opened Types

  /** The colour switch as written, over the raw status string. */
  function ColorOfName(raw: string): (r: string)
    ensures r == "bg-gray-100 text-gray-800" <==>
      !(raw == "pending" || raw == "ready" || raw == "picked-up" || raw == "delivered" || raw == "cancelled")
    ensures raw == "ready" ==> r == "bg-blue-100 text-blue-800"
    ensures raw == "picked-up" ==> r == "bg-yellow-100 text-yellow-800"
  {
    if raw == "pending" then "bg-gray-200 text-gray-800"
    else if raw == "ready" then "bg-blue-100 text-blue-800"
    else if raw == "picked-up" then "bg-yellow-100 text-yellow-800"
    else if raw == "delivered" then "bg-green-100 text-green-800"
    else if raw == "cancelled" then "bg-red-100 text-red-800"
    else "bg-gray-100 text-gray-800"
  }

  /** The label switch as written; its default returns the string itself. */
  function TextOfName(raw: string): (r: string)
    ensures r == raw <==>
      !(raw == "pending" || raw == "ready" || raw == "picked-up" || raw == "delivered" || raw == "cancelled")
    ensures raw == "ready" ==> r == "Ready for Pickup"
    ensures raw == "picked-up" ==> r == "Picked Up"
  {
    if raw == "pending" then "Pending"
    else if raw == "ready" then "Ready for Pickup"
    else if raw == "picked-up" then "Picked Up"
    else if raw == "delivered" then "Delivered"
    else if raw == "cancelled" then "Cancelled"
    else raw
  }

  /** getStatusColor applied to a status: three specific classes, grey for the rest. */
  function StatusColor(s: OrderStatus): (r: string)
    ensures s == Pending ==> r == "bg-gray-200 text-gray-800"
    ensures s == Delivered ==> r == "bg-green-100 text-green-800"
    ensures s == Cancelled ==> r == "bg-red-100 text-red-800"
    ensures s !in {Pending, Delivered, Cancelled} ==> r == "bg-gray-100 text-gray-800"
  {
    ColorOfName(StatusName(s))
  }

  /** getStatusText applied to a status: three capitalised labels, the raw name for the rest. */
  function StatusText(s: OrderStatus): (r: string)
    ensures s == Pending ==> r == "Pending"
    ensures s == Delivered ==> r == "Delivered"
    ensures s == Cancelled ==> r == "Cancelled"
    ensures s !in {Pending, Delivered, Cancelled} ==> r == StatusName(s)
  {
    TextOfName(StatusName(s))
  }

  /** The 'ready' and 'picked-up' cases are dead: no status has those names, so
      their labels and colours are never produced for a status. */
  lemma ReadyAndPickedUpUnreachable(s: OrderStatus)
    ensures StatusName(s) != "ready" && StatusName(s) != "picked-up"
    ensures StatusText(s) != "Ready for Pickup" && StatusText(s) != "Picked Up"
    ensures StatusColor(s) != "bg-blue-100 text-blue-800"
    ensures StatusColor(s) != "bg-yellow-100 text-yellow-800"
  {
  }

  /** Labels tell statuses apart: the badge never shows the same text for two statuses. */
  lemma StatusTextInjective(s: OrderStatus, t: OrderStatus)
    ensures StatusText(s) == StatusText(t) ==> s == t
  {
  }
}
