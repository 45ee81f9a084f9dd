/** The order record shared by the kitchen display, the admin orders panel
    and the customer tracking page, and the order status lifecycle
    new -> preparing -> ready -> served. The persistence layer stores the
    status as free text; the model reads it into a closed datatype whose
    `Other` case keeps every string outside the four lifecycle names, so the
    components' handling of unknown statuses stays visible. */
module Orders {
  import opened Wrappers
  import Seqs

  datatype Status = New | Preparing | Ready | Served | Other(name: string)

  /** The four lifecycle names, in lifecycle order. */
  const LifecycleNames: seq<string> := ["new", "preparing", "ready", "served"]

  /** An `Other` status never carries one of the lifecycle names, so two
      statuses are equal exactly when their stored strings are. */
  predicate Canonical(st: Status)
  {
    st.Other? ==> st.name !in LifecycleNames
  }

  /** The stored string of a status. */
  function Name(st: Status): string
  {
    match st
    case New => "new"
    case Preparing => "preparing"
    case Ready => "ready"
    case Served => "served"
    case Other(s) => s
  }

  /** Reads a stored status string. */
  function Parse(s: string): (st: Status)
    ensures Canonical(st)
    ensures Name(st) == s
    ensures st.Other? <==> s !in LifecycleNames
  {
    if s == "new" then New
    else if s == "preparing" then Preparing
    else if s == "ready" then Ready
    else if s == "served" then Served
    else Other(s)
  }

  /** Reading back the stored string of a canonical status gives the status. */
  lemma ParseName(st: Status)
    requires Canonical(st)
    ensures Parse(Name(st)) == st
  {
  }

  /** For canonical statuses, comparing stored strings is comparing statuses
      (the components compare strings: `order.status === 'served'`). */
  lemma NameInjective(a: Status, b: Status)
    requires Canonical(a) && Canonical(b)
    requires Name(a) == Name(b)
    ensures a == b
  {
    ParseName(a);
    ParseName(b);
  }

  /** Position of a status in the lifecycle; `Other` has none. */
  function Rank(st: Status): Option<nat>
  {
    match st
    case New => Some(0)
    case Preparing => Some(1)
    case Ready => Some(2)
    case Served => Some(3)
    case Other(_) => None
  }

  /** One line of an order, captured by value when the order was placed. */
  datatype OrderItem = OrderItem(name: string, quantity: int, price: int)

  /** Amount shown for one line: unit price times quantity (in rupees). */
  function LineAmount(item: OrderItem): int
  {
    item.price * item.quantity
  }

  datatype Order = Order(
    id: string,
    tableNumber: string,
    items: seq<OrderItem>,
    specialInstructions: Option<string>,
    status: Status,
    totalAmount: int,
    customerPhone: Option<string>,
    createdAt: string)

  /** The JSONB `items` column as the components receive it. */
  datatype ItemsJson = ItemsArray(elems: seq<OrderItem>) | NotAnArray

  /** An `orders` row as the persistence layer returns it. */
  datatype OrderRow = OrderRow(
    id: string,
    tableNumber: string,
    items: ItemsJson,
    specialInstructions: Option<string>,
    status: string,
    totalAmount: int,
    customerPhone: Option<string>,
    createdAt: string)

  /** `Array.isArray(items) ? items : []`. */
  function ParseItems(j: ItemsJson): seq<OrderItem>
  {
    match j
    case ItemsArray(elems) => elems
    case NotAnArray => []
  }

  /** `{ ...row, items: parsedItems }`: every field is kept, the status string
      is read into `Status`, and stored items that are not an array become
      the empty list. */
  function FromRow(row: OrderRow): (o: Order)
    ensures o.id == row.id && o.tableNumber == row.tableNumber
    ensures o.specialInstructions == row.specialInstructions
    ensures o.totalAmount == row.totalAmount && o.customerPhone == row.customerPhone
    ensures o.createdAt == row.createdAt
    ensures Canonical(o.status) && Name(o.status) == row.status
    ensures row.items.NotAnArray? ==> o.items == []
    ensures row.items.ItemsArray? ==> o.items == row.items.elems
  {
    Order(row.id, row.tableNumber, ParseItems(row.items), row.specialInstructions,
          Parse(row.status), row.totalAmount, row.customerPhone, row.createdAt)
  }

  /** The rows of `table` after `update({ status }).eq('id', orderId)`: the
      status of every row with that id is replaced, every other row and
      every other field is kept. */
  function SetStatus(table: seq<OrderRow>, orderId: string, status: string): (r: seq<OrderRow>)
    ensures |r| == |table|
    ensures forall i :: 0 <= i < |table| ==>
              r[i] == if table[i].id == orderId then table[i].(status := status) else table[i]
  {
    Seqs.Map((row: OrderRow) => if row.id == orderId then row.(status := status) else row, table)
  }

  /** Every order read from rows carries a canonical status. */
  predicate AllCanonical(orders: seq<Order>)
  {
    forall i :: 0 <= i < |orders| ==> Canonical(orders[i].status)
  }
}
