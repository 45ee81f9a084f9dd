/** The kitchen display: a list of orders fetched under a status filter,
    refreshed on every realtime change, with a forward-only "advance" button
    driven by a fixed successor table. */
module Kitchen {
  import opened Wrappers
  import opened Orders
  import Seqs
  import Text

  /** The successor table used by the advance button: new -> preparing,
      preparing -> ready, ready -> served; nothing else has a successor. */
  function NextStatus(st: Status): (r: Option<Status>)
    ensures r.Some? <==> st == New || st == Preparing || st == Ready
    ensures r.Some? ==> Rank(st).Some? && Rank(r.value) == Some(Rank(st).value + 1)
  {
    match st
    case New => Some(Preparing)
    case Preparing => Some(Ready)
    case Ready => Some(Served)
    case _ => None
  }

  /** The successor table is exactly "one lifecycle step forward". */
  lemma NextStatusIsOneStep(a: Status, b: Status)
    ensures NextStatus(a) == Some(b) <==>
            Rank(a).Some? && Rank(b).Some? && Rank(b).value == Rank(a).value + 1
  {
  }

  /** `n` presses of the advance button, or `None` once no button is offered. */
  function AdvanceTimes(st: Status, n: nat): Option<Status>
    decreases n
  {
    if n == 0 then Some(st)
    else match NextStatus(st)
      case None => None
      case Some(next) => AdvanceTimes(next, n - 1)
  }

  /** Every press moves exactly one step forward, so `n` presses move `n`
      steps. */
  lemma {:induction false} AdvanceTimesRank(st: Status, n: nat, t: Status)
    requires n > 0 && AdvanceTimes(st, n) == Some(t)
    ensures Rank(st).Some? && Rank(t).Some? && Rank(t).value == Rank(st).value + n
    decreases n
  {
    var next := NextStatus(st).value;
    if n > 1 {
      AdvanceTimesRank(next, n - 1, t);
    }
  }

  /** From `new`, three presses reach `served`, where no button is offered. */
  lemma NewReachesServed()
    ensures AdvanceTimes(New, 1) == Some(Preparing)
    ensures AdvanceTimes(New, 2) == Some(Ready)
    ensures AdvanceTimes(New, 3) == Some(Served)
    ensures NextStatus(Served) == None
  {
  }

  /** No status can be advanced four times: the advance form terminates. */
  lemma AdvanceTerminates(st: Status)
    ensures AdvanceTimes(st, 4) == None
  {
    if AdvanceTimes(st, 4).Some? {
      AdvanceTimesRank(st, 4, AdvanceTimes(st, 4).value);
    }
  }

  /** The advance form never moves an order backward and never produces `new`. */
  lemma AdvanceNeverBackward(st: Status, t: Status)
    requires NextStatus(st) == Some(t)
    ensures t != New && Rank(t).value > Rank(st).value
  {
  }

  /** The label text for each status (`statusLabels`); an unknown status has
      no entry, and a template prints that as "undefined". */
  function Label(st: Status): (r: string)
    ensures Rank(st).Some? <==> r != "undefined"
    ensures st == New ==> r == "New Order"
  {
    match st
    case New => "New Order"
    case Preparing => "Preparing"
    case Ready => "Ready"
    case Served => "Served"
    case Other(_) => "undefined"
  }

  /** The advance button on an order card: its caption and the status it
      requests. */
  datatype AdvanceButton = AdvanceButton(caption: string, target: Status)

  function Caption(next: Status): (r: string)
    ensures r != "" <==> next == Preparing || next == Ready || next == Served
  {
    match next
    case Preparing => "\U{1F468}\U{200D}\U{1F373} Start Preparing"
    case Ready => "\U{2705} Mark Ready"
    case Served => "\U{1F37D}\U{FE0F} Mark Served"
    case _ => ""
  }

  /** The three advance buttons carry three different captions, so a
      caption tells which status the button requests. */
  lemma CaptionsDistinct(a: Status, b: Status)
    requires Caption(a) != "" && Caption(a) == Caption(b)
    ensures a == b
  {
    assert Caption(Preparing)[1] != Caption(Ready)[1];
    assert Caption(Preparing)[1] != Caption(Served)[1];
    assert Caption(Ready)[1] != Caption(Served)[1];
  }

  /** The button appears only when a successor exists, and it requests
      exactly that successor. */
  function AdvanceButtonFor(st: Status): (b: Option<AdvanceButton>)
    ensures b.Some? <==> NextStatus(st).Some?
    ensures b.Some? ==> b.value.target == NextStatus(st).value
    ensures b.Some? ==> Rank(b.value.target).value == Rank(st).value + 1
    ensures st == Served ==> b == None
    ensures b.Some? ==> b.value.caption == Caption(b.value.target) && b.value.caption != ""
  {
    match NextStatus(st)
    case None => None
    case Some(next) => Some(AdvanceButton(Caption(next), next))
  }

  /** The statuses the "active" filter shows. */
  predicate IsActive(st: Status)
  {
    st == New || st == Preparing || st == Ready
  }

  /** The status condition a filter value puts on the order query. */
  datatype StatusQuery = AnyStatus | StatusIn(names: seq<string>) | StatusEq(name: string)

  /** Whether the persistence layer returns a row with stored status `s`. */
  predicate QueryAdmits(q: StatusQuery, s: string)
  {
    match q
    case AnyStatus => true
    case StatusIn(names) => s in names
    case StatusEq(name) => s == name
  }

  /** What a filter value means: "active" keeps the unfinished orders, "all"
      keeps everything and any other value keeps exact matches. */
  predicate FilterAdmits(filter: string, st: Status)
  {
    if filter == "active" then IsActive(st)
    else filter == "all" || Name(st) == filter
  }

  /** The `query` built step by step in `fetchOrders`: the filter's status
      condition, as sent to the persistence layer, admits exactly the rows the
      filter means. */
  method BuildStatusQuery(filter: string) returns (q: StatusQuery)
    ensures forall s :: QueryAdmits(q, s) <==> FilterAdmits(filter, Parse(s))
  {
    q := AnyStatus;
    if filter == "active" {
      q := StatusIn(["new", "preparing", "ready"]);
    } else if filter != "all" {
      q := StatusEq(filter);
    }
  }

  /** The orders the display holds after a successful fetch from `table`
      (rows already in the persistence layer's newest-first order). */
  function Visible(filter: string, table: seq<OrderRow>): (r: seq<Order>)
    ensures forall i :: 0 <= i < |r| ==> FilterAdmits(filter, r[i].status)
    ensures |r| <= |table|
  {
    Seqs.Map(FromRow, Seqs.Filter((row: OrderRow) => FilterAdmits(filter, Parse(row.status)), table))
  }

  /** The "all" filter shows every row, in the order fetched. */
  lemma VisibleAll(table: seq<OrderRow>)
    ensures Visible("all", table) == Seqs.Map(FromRow, table)
  {
    Seqs.FilterAll((row: OrderRow) => FilterAdmits("all", Parse(row.status)), table);
  }

  /** The "active" filter shows exactly the rows whose stored status is new,
      preparing or ready, and never a served one. */
  lemma VisibleActive(table: seq<OrderRow>, row: OrderRow)
    requires row in table
    ensures FromRow(row) in Visible("active", table) <==>
            row.status in ["new", "preparing", "ready"]
  {
    var p := (row: OrderRow) => FilterAdmits("active", Parse(row.status));
    var kept := Seqs.Filter(p, table);
    Seqs.FilterMembership(p, table, row);
    if FromRow(row) in Visible("active", table) {
      var i :| 0 <= i < |kept| && FromRow(kept[i]) == FromRow(row);
      assert Name(FromRow(kept[i]).status) == kept[i].status;
    }
  }

  /** Any other filter value shows exactly the rows whose stored status
      equals it. */
  lemma VisibleByName(filter: string, table: seq<OrderRow>, row: OrderRow)
    requires filter != "all" && filter != "active"
    requires row in table
    ensures FromRow(row) in Visible(filter, table) <==> row.status == filter
  {
    var p := (row: OrderRow) => FilterAdmits(filter, Parse(row.status));
    var kept := Seqs.Filter(p, table);
    Seqs.FilterMembership(p, table, row);
    if FromRow(row) in Visible(filter, table) {
      var i :| 0 <= i < |kept| && FromRow(kept[i]) == FromRow(row);
      assert Name(FromRow(kept[i]).status) == kept[i].status;
    }
  }

  /** `getTimeElapsed` for a whole number of minutes since the order was
      created (negative when the clock is behind). */
  function Elapsed(mins: int): (r: string)
    ensures mins < 1 <==> r == "Just now"
    ensures 1 <= mins < 60 ==> r == Text.NatToString(mins) + "m ago"
    ensures mins >= 60 ==> exists h: nat, m: nat ::
              h >= 1 && m < 60 && h * 60 + m == mins &&
              r == Text.NatToString(h) + "h " + Text.NatToString(m) + "m ago"
  {
    if mins < 1 then "Just now"
    else if mins < 60 then
      var r := Text.NatToString(mins) + "m ago";
      assert r[|r| - 1] == 'o';
      r
    else
      var h: nat, m: nat := mins / 60, mins % 60;
      assert h * 60 + m == mins;
      var r := Text.NatToString(h) + "h " + Text.NatToString(m) + "m ago";
      assert r[|r| - 1] == 'o';
      r
  }

  /** A realtime notification on the `orders` table. */
  datatype ChangeEvent = Inserted(row: OrderRow) | Updated(row: OrderRow) | Deleted

  /** The kitchen display's state. */
  class KitchenDisplay {
    var orders: seq<Order>
    var loading: bool
    var filter: string

    constructor ()
      ensures orders == [] && loading && filter == "active"
    {
      orders := [];
      loading := true;
      filter := "active";
    }

    /** `fetchOrders`: `table` is the orders table as the persistence layer
        returns it, newest first, and `fails` whether the query reports an
        error. A failed fetch keeps the previous list. */
    method FetchOrders(table: seq<OrderRow>, fails: bool)
      modifies this
      ensures filter == old(filter) && !loading
      ensures orders == if fails then old(orders) else Visible(filter, table)
    {
      loading := true;
      var q := BuildStatusQuery(filter);
      if !fails {
        var p := (row: OrderRow) => QueryAdmits(q, row.status);
        var f := filter;
        var spec := (row: OrderRow) => FilterAdmits(f, Parse(row.status));
        Seqs.FilterSame(p, spec, table);
        orders := Seqs.Map(FromRow, Seqs.Filter(p, table));
      }
      loading := false;
    }

    /** Choosing a filter button: the filter changes and the effect refetches. */
    method SetFilter(f: string, table: seq<OrderRow>, fails: bool)
      modifies this
      ensures filter == f && !loading
      ensures orders == if fails then old(orders) else Visible(f, table)
    {
      filter := f;
      FetchOrders(table, fails);
    }

    /** `updateOrderStatus`: a failed update changes neither the table nor
        the list; a successful one updates that order's row and refetches
        (the refetch itself may fail). Returns the new table and the notice
        shown. */
    method UpdateOrderStatus(table: seq<OrderRow>, orderId: string, newStatus: string,
                             fails: bool, refetchFails: bool)
      returns (table': seq<OrderRow>, notice: string)
      modifies this
      ensures filter == old(filter) && !loading == (!fails || !old(loading))
      ensures fails ==> table' == table && orders == old(orders) && loading == old(loading)
      ensures fails ==> notice == "Failed to update order status"
      ensures !fails ==> table' == SetStatus(table, orderId, newStatus)
      ensures !fails ==> notice == "Order marked as " + Label(Parse(newStatus))
      ensures !fails ==> orders == if refetchFails then old(orders) else Visible(filter, table')
    {
      if fails {
        table' := table;
        notice := "Failed to update order status";
      } else {
        table' := SetStatus(table, orderId, newStatus);
        notice := "Order marked as " + Label(Parse(newStatus));
        FetchOrders(table', refetchFails);
      }
    }

    /** Pressing the advance button of an order card: requests exactly the
        successor of the card's status. */
    method Advance(table: seq<OrderRow>, order: Order, fails: bool, refetchFails: bool)
      returns (table': seq<OrderRow>, notice: string)
      requires AdvanceButtonFor(order.status).Some?
      modifies this
      ensures filter == old(filter)
      ensures fails ==> table' == table && orders == old(orders) && loading == old(loading)
      ensures fails ==> notice == "Failed to update order status"
      ensures !fails ==> table' == SetStatus(table, order.id, Name(NextStatus(order.status).value))
      ensures !fails ==> notice == "Order marked as " + Label(NextStatus(order.status).value)
      ensures !fails ==> !loading
      ensures !fails ==> orders == if refetchFails then old(orders) else Visible(filter, table')
    {
      var button := AdvanceButtonFor(order.status).value;
      ParseName(button.target);
      table', notice := UpdateOrderStatus(table, order.id, Name(button.target), fails, refetchFails);
    }

    /** The realtime handler: every event triggers a refetch; only an insert
        raises the new-order alert, naming the new row's table. */
    method OnOrderChange(event: ChangeEvent, table: seq<OrderRow>, fails: bool)
      returns (alert: Option<string>)
      modifies this
      ensures filter == old(filter) && !loading
      ensures alert.Some? <==> event.Inserted?
      ensures event.Inserted? ==> alert == Some("New order from Table " + event.row.tableNumber + "!")
      ensures orders == if fails then old(orders) else Visible(filter, table)
    {
      alert := None;
      if event.Inserted? {
        alert := Some("New order from Table " + event.row.tableNumber + "!");
      }
      FetchOrders(table, fails);
    }
  }

  /** What the order grid shows. */
  datatype Card = Card(order: Order, button: Option<AdvanceButton>, highlighted: bool)
  datatype BoardView = Spinner | NoOrders | Grid(cards: seq<Card>)

  /** The board: a spinner only while loading with nothing to show, the empty
      notice for an empty list, otherwise one card per order, in order; new
      orders are highlighted. */
  function Board(loading: bool, orders: seq<Order>): (v: BoardView)
    ensures v.Spinner? <==> loading && orders == []
    ensures v.NoOrders? <==> !loading && orders == []
    ensures v.Grid? ==> |v.cards| == |orders| && forall i :: 0 <= i < |orders| ==>
              v.cards[i].order == orders[i] &&
              v.cards[i].button == AdvanceButtonFor(orders[i].status) &&
              (v.cards[i].highlighted <==> orders[i].status == New)
  {
    if loading && orders == [] then Spinner
    else if orders == [] then NoOrders
    else Grid(Seqs.Map((o: Order) => Card(o, AdvanceButtonFor(o.status), o.status == New), orders))
  }
}
