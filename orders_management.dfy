/** The admin orders panel: orders fetched under a status filter, narrowed by
    a free-text search, summarised by count, revenue and active count, with an
    explicit status selector that can also move an order backward. */
module OrdersManagement {
  import opened Wrappers
  import opened Orders
  import Seqs
  import Text

  /** The status condition for the status selector value: "all" imposes
      none, any other value requires the stored status to equal it. */
  predicate StatusFilterAdmits(statusFilter: string, st: Status)
  {
    statusFilter == "all" || Name(st) == statusFilter
  }

  /** The status condition in the order query (`query.eq('status', …)` or
      nothing). */
  datatype StatusQuery = AnyStatus | StatusEq(name: string)

  method BuildStatusQuery(statusFilter: string) returns (q: StatusQuery)
    ensures forall s :: (q.AnyStatus? || q.name == s) <==> StatusFilterAdmits(statusFilter, Parse(s))
  {
    q := AnyStatus;
    if statusFilter != "all" {
      q := StatusEq(statusFilter);
    }
  }

  /** The search predicate of `filteredOrders`. */
  predicate SearchMatches(term: string, o: Order)
  {
    if term == "" then true
    else
      var search := Text.ToLower(term);
      || Text.Contains(Text.ToLower(o.id), search)
      || Text.Contains(Text.ToLower(o.tableNumber), search)
      || (o.customerPhone.Some? && o.customerPhone.value != "" && Text.Contains(o.customerPhone.value, search))
  }

  /** An order matches a non-empty term exactly when the lower-cased term
      occurs in the lower-cased id or table label, or in the stored phone
      number as written (the phone is not lower-cased). */
  lemma SearchMatchesOccurs(term: string, o: Order)
    requires term != ""
    ensures SearchMatches(term, o) <==>
            || (exists i :: Text.OccursAt(Text.ToLower(o.id), Text.ToLower(term), i))
            || (exists i :: Text.OccursAt(Text.ToLower(o.tableNumber), Text.ToLower(term), i))
            || (o.customerPhone.Some? &&
                exists i :: Text.OccursAt(o.customerPhone.value, Text.ToLower(term), i))
  {
    var search := Text.ToLower(term);
    Text.ContainsIffOccurs(Text.ToLower(o.id), search);
    Text.ContainsIffOccurs(Text.ToLower(o.tableNumber), search);
    if o.customerPhone.Some? {
      Text.ContainsIffOccurs(o.customerPhone.value, search);
      if exists i :: Text.OccursAt(o.customerPhone.value, search, i) {
        var i :| Text.OccursAt(o.customerPhone.value, search, i);
        assert |search| == |term| > 0;
      }
    }
  }

  /** `filteredOrders`: the fetched orders that match the search term. */
  function FilteredOrders(term: string, orders: seq<Order>): (r: seq<Order>)
    ensures forall i :: 0 <= i < |r| ==> SearchMatches(term, r[i])
    ensures Seqs.IsSubsequence(r, orders)
    ensures term == "" ==> r == orders
  {
    var p := (o: Order) => SearchMatches(term, o);
    Seqs.FilterIsSubsequence(p, orders);
    if term == "" then Seqs.FilterAll(p, orders); orders
    else Seqs.Filter(p, orders)
  }

  /** A matching order is never dropped by the search. */
  lemma SearchKeepsMatches(term: string, orders: seq<Order>, o: Order)
    requires o in orders && SearchMatches(term, o)
    ensures o in FilteredOrders(term, orders)
  {
    Seqs.FilterKeeps((o: Order) => SearchMatches(term, o), orders, o);
  }

  /** The figures of the summary card. */
  datatype Summary = Summary(count: nat, revenue: int, active: nat)

  function Amount(o: Order): int
  {
    o.totalAmount
  }

  predicate NotServed(o: Order)
  {
    o.status != Served
  }

  predicate IsServed(o: Order)
  {
    o.status == Served
  }

  /** The summary of the shown orders: their number, the sum of their
      totals, and how many are not served; active and served orders
      partition the count. */
  function Summarize(shown: seq<Order>): (s: Summary)
    ensures s.count == |shown|
    ensures s.revenue == Seqs.Sum(Amount, shown)
    ensures s.active == Seqs.Count(NotServed, shown)
    ensures s.active + Seqs.Count(IsServed, shown) == s.count
  {
    Seqs.FilterLength(NotServed, shown);
    Seqs.CountComplement(NotServed, IsServed, shown);
    Summary(|shown|, Seqs.Sum(Amount, shown), |Seqs.Filter(NotServed, shown)|)
  }

  /** Revenue adds up over a split of the list. */
  lemma {:induction false} RevenueAppend(a: seq<Order>, b: seq<Order>)
    ensures Summarize(a + b).revenue == Summarize(a).revenue + Summarize(b).revenue
  {
    if a == [] {
      assert a + b == b;
    } else {
      assert (a + b)[1..] == a[1..] + b;
      RevenueAppend(a[1..], b);
    }
  }

  /** With all-positive totals the revenue is positive exactly when some
      order is shown. */
  lemma {:induction false} RevenuePositive(shown: seq<Order>)
    requires forall i :: 0 <= i < |shown| ==> shown[i].totalAmount > 0
    ensures Summarize(shown).revenue > 0 <==> shown != []
  {
    if shown != [] {
      RevenuePositive(shown[1..]);
    }
  }

  /** The label of each selectable status (`statusLabels` of the panel). */
  function Label(st: Status): (r: string)
    ensures Rank(st).Some? <==> r != "undefined"
  {
    match st
    case New => "New"
    case Preparing => "Preparing"
    case Ready => "Ready"
    case Served => "Served"
    case Other(_) => "undefined"
  }

  /** The statuses offered by the explicit-set selector: all four, in
      lifecycle order, whatever the current status; hidden for served
      orders. */
  function SelectorOptions(st: Status): (r: seq<Status>)
    ensures st == Served <==> r == []
    ensures st != Served ==> forall t :: Rank(t).Some? ==> t in r
  {
    if st == Served then [] else [New, Preparing, Ready, Served]
  }

  /** The selector permits moving an order backward (for example from ready
      to new), which the kitchen's advance button never does. */
  lemma SelectorAllowsBackward()
    ensures New in SelectorOptions(Ready)
    ensures Rank(New).value < Rank(Ready).value
  {
  }

  /** `getTimeElapsed` of the admin panel: no "Just now" case, so a
      sub-minute (or negative) difference prints as minutes. */
  function Elapsed(mins: int): (r: string)
    ensures 0 <= mins < 60 ==> r == Text.NatToString(mins) + "m ago"
    ensures mins < 0 ==> r == "-" + Text.NatToString(-mins) + "m ago"
    ensures mins >= 60 ==> exists h: nat, m: nat ::
              h >= 1 && m < 60 && h * 60 + m == mins &&
              r == Text.NatToString(h) + "h " + Text.NatToString(m) + "m ago"
  {
    if mins < 60 then Text.IntToString(mins) + "m ago"
    else
      var h: nat, m: nat := mins / 60, mins % 60;
      assert h * 60 + m == mins;
      Text.NatToString(h) + "h " + Text.NatToString(m) + "m ago"
  }

  /** The rows the status condition of the query lets through. */
  function FetchedRows(statusFilter: string, table: seq<OrderRow>): seq<OrderRow>
  {
    Seqs.Filter((row: OrderRow) => StatusFilterAdmits(statusFilter, Parse(row.status)), table)
  }

  /** The orders the panel holds after a successful fetch of `table` (rows
      already restricted to the date window, newest first). */
  function Fetched(statusFilter: string, table: seq<OrderRow>): (r: seq<Order>)
    ensures forall i :: 0 <= i < |r| ==> StatusFilterAdmits(statusFilter, r[i].status)
  {
    Seqs.Map(FromRow, FetchedRows(statusFilter, table))
  }

  /** With the filter at "all" every row of the window is shown, in order. */
  lemma FetchedAll(table: seq<OrderRow>)
    ensures Fetched("all", table) == Seqs.Map(FromRow, table)
  {
    Seqs.FilterAll((row: OrderRow) => StatusFilterAdmits("all", Parse(row.status)), table);
  }

  /** With any other filter value, a row is fetched exactly when its stored
      status equals that value. */
  lemma FetchedByName(statusFilter: string, table: seq<OrderRow>, row: OrderRow)
    requires statusFilter != "all"
    ensures row in FetchedRows(statusFilter, table) <==> row in table && row.status == statusFilter
  {
    Seqs.FilterMembership((row: OrderRow) => StatusFilterAdmits(statusFilter, Parse(row.status)), table, row);
  }

  class OrdersPanel {
    var orders: seq<Order>
    var loading: bool
    var searchTerm: string
    var statusFilter: string
    /** "today", "week", "month" or "all"; the window itself is computed from
        the clock, so the fetch methods receive the rows it admits. */
    var dateFilter: string

    constructor ()
      ensures orders == [] && loading && searchTerm == "" && statusFilter == "all"
      ensures dateFilter == "today"
    {
      dateFilter := "today";
      orders := [];
      loading := true;
      searchTerm := "";
      statusFilter := "all";
    }

    /** `fetchOrders`: a failed query keeps the previous list. */
    method FetchOrders(table: seq<OrderRow>, fails: bool)
      modifies this
      ensures searchTerm == old(searchTerm) && statusFilter == old(statusFilter) && !loading
      ensures dateFilter == old(dateFilter)
      ensures orders == if fails then old(orders) else Fetched(statusFilter, table)
    {
      loading := true;
      var q := BuildStatusQuery(statusFilter);
      if !fails {
        var p := (row: OrderRow) => q.AnyStatus? || q.name == row.status;
        var f := statusFilter;
        var spec := (row: OrderRow) => StatusFilterAdmits(f, Parse(row.status));
        Seqs.FilterSame(p, spec, table);
        orders := Seqs.Map(FromRow, Seqs.Filter(p, table));
      }
      loading := false;
    }

    /** Choosing a date window refetches; `table` holds the rows the new
        window admits. */
    method SetDateFilter(d: string, table: seq<OrderRow>, fails: bool)
      modifies this
      ensures dateFilter == d
      ensures statusFilter == old(statusFilter) && searchTerm == old(searchTerm) && !loading
      ensures orders == if fails then old(orders) else Fetched(statusFilter, table)
    {
      dateFilter := d;
      FetchOrders(table, fails);
    }

    /** Typing in the search box changes only the term (no refetch). */
    method SetSearchTerm(term: string)
      modifies this
      ensures searchTerm == term
      ensures orders == old(orders) && loading == old(loading) && statusFilter == old(statusFilter)
      ensures dateFilter == old(dateFilter)
    {
      searchTerm := term;
    }

    /** Choosing a status filter refetches. */
    method SetStatusFilter(f: string, table: seq<OrderRow>, fails: bool)
      modifies this
      ensures statusFilter == f && searchTerm == old(searchTerm) && !loading
      ensures dateFilter == old(dateFilter)
      ensures orders == if fails then old(orders) else Fetched(f, table)
    {
      statusFilter := f;
      FetchOrders(table, fails);
    }

    /** The explicit-set selector: any of the four statuses, including a
        backward move. A failure changes nothing; success updates that row
        and refetches. */
    method SetOrderStatus(table: seq<OrderRow>, order: Order, newStatus: Status,
                          fails: bool, refetchFails: bool)
      returns (table': seq<OrderRow>, notice: string)
      requires newStatus in SelectorOptions(order.status)
      modifies this
      ensures searchTerm == old(searchTerm) && statusFilter == old(statusFilter)
      ensures dateFilter == old(dateFilter)
      ensures fails ==> table' == table && orders == old(orders) && loading == old(loading)
      ensures fails ==> notice == "Failed to update status"
      ensures !fails ==> !loading
      ensures !fails ==> table' == SetStatus(table, order.id, Name(newStatus))
      ensures !fails ==> notice == "Order marked as " + Label(newStatus)
      ensures !fails ==> orders == if refetchFails then old(orders) else Fetched(statusFilter, table')
    {
      if fails {
        table' := table;
        notice := "Failed to update status";
      } else {
        table' := SetStatus(table, order.id, Name(newStatus));
        notice := "Order marked as " + Label(newStatus);
        FetchOrders(table', refetchFails);
      }
    }

    /** The orders the list and the summary show. */
    function Shown(): seq<Order>
      reads this
    {
      FilteredOrders(searchTerm, orders)
    }
  }
}
