/** The customer-side tracking hook: given an order id it fetches that one
    order, keeps a loading flag and an error message, and follows realtime
    updates of that order's row. */
module OrderTracking {
  import opened Wrappers
  import opened Orders
  import Seqs

  const NotFoundMessage: string := "Order not found. Please check your order ID."

  /** The rows of the `orders` table whose id is `orderId`. */
  function Matching(table: seq<OrderRow>, orderId: string): (r: seq<OrderRow>)
    ensures forall i :: 0 <= i < |r| ==> r[i].id == orderId && r[i] in table
  {
    Seqs.Filter((row: OrderRow) => row.id == orderId, table)
  }

  /** `select('*').eq('id', orderId).single()`: succeeds with the row when
      exactly one row has that id, and fails otherwise (none, or more than
      one). */
  function FetchSingle(table: seq<OrderRow>, orderId: string): (r: Option<OrderRow>)
    ensures r.Some? <==> |Matching(table, orderId)| == 1
    ensures r.Some? ==> r.value in table && r.value.id == orderId
  {
    var m := Matching(table, orderId);
    if |m| == 1 then Some(m[0]) else None
  }

  /** With unique ids, an id that is present is always found. */
  lemma FetchSingleFindsPresent(table: seq<OrderRow>, orderId: string, row: OrderRow)
    requires forall i, j :: 0 <= i < j < |table| ==> table[i].id != table[j].id
    requires row in table && row.id == orderId
    ensures FetchSingle(table, orderId) == Some(row)
  {
    var p := (r: OrderRow) => r.id == orderId;
    Seqs.FilterKeeps(p, table, row);
    UniqueMatch(table, orderId, row);
  }

  lemma {:induction false} UniqueMatch(table: seq<OrderRow>, orderId: string, row: OrderRow)
    requires forall i, j :: 0 <= i < j < |table| ==> table[i].id != table[j].id
    requires row in table && row.id == orderId
    ensures Matching(table, orderId) == [row]
  {
    var p := (r: OrderRow) => r.id == orderId;
    if table[0] == row {
      assert forall k :: 0 <= k < |table[1..]| ==> table[1..][k].id != orderId;
      NoMatch(table[1..], orderId);
    } else {
      UniqueMatch(table[1..], orderId, row);
    }
  }

  lemma {:induction false} NoMatch(table: seq<OrderRow>, orderId: string)
    requires forall k :: 0 <= k < |table| ==> table[k].id != orderId
    ensures Matching(table, orderId) == []
  {
    if table != [] {
      NoMatch(table[1..], orderId);
    }
  }

  /** An absent id is never found. */
  lemma FetchSingleAbsent(table: seq<OrderRow>, orderId: string)
    requires forall k :: 0 <= k < |table| ==> table[k].id != orderId
    ensures FetchSingle(table, orderId) == None
  {
    NoMatch(table, orderId);
  }

  /** The state of `useOrderTracking`, plus the id whose realtime channel is
      open (`None` when no channel is subscribed). */
  class OrderTracker {
    var order: Option<Order>
    var loading: bool
    var error: Option<string>
    var channel: Option<string>

    constructor ()
      ensures order == None && !loading && error == None && channel == None
    {
      order := None;
      loading := false;
      error := None;
      channel := None;
    }

    /** The effect when the tracked id changes: the previous channel is
        removed; an empty id clears the order (and leaves the flags as they
        were); any other id starts a fetch and subscribes to updates of that
        row. */
    method SetOrderId(orderId: string)
      modifies this
      ensures orderId == "" ==> order == None && channel == None
      ensures orderId == "" ==> loading == old(loading) && error == old(error)
      ensures orderId != "" ==> loading && error == None && order == old(order)
      ensures orderId != "" ==> channel == Some(orderId)
    {
      channel := None;
      if orderId == "" {
        order := None;
        return;
      }
      loading := true;
      error := None;
      channel := Some(orderId);
    }

    /** The fetch completes: a failure sets the message and clears the order,
        a success shows the row with its items read as in `FromRow`. */
    method CompleteFetch(response: Option<OrderRow>)
      modifies this
      ensures !loading && channel == old(channel)
      ensures response.None? ==> error == Some(NotFoundMessage) && order == None
      ensures response.Some? ==> order == Some(FromRow(response.value)) && error == old(error)
    {
      if response.None? {
        error := Some(NotFoundMessage);
        order := None;
      } else {
        order := Some(FromRow(response.value));
      }
      loading := false;
    }

    /** Tracking an id against the current table: the fetch and its
        completion. */
    method Track(orderId: string, table: seq<OrderRow>)
      requires orderId != ""
      modifies this
      ensures !loading && channel == Some(orderId)
      ensures order.Some? <==> |Matching(table, orderId)| == 1
      ensures error.Some? <==> order.None?
      ensures error.Some? ==> error.value == NotFoundMessage
      ensures order.Some? ==> order.value.id == orderId
      ensures order == if |Matching(table, orderId)| == 1 then Some(FromRow(Matching(table, orderId)[0])) else None
    {
      SetOrderId(orderId);
      CompleteFetch(FetchSingle(table, orderId));
    }

    /** A realtime UPDATE event: the channel only delivers rows whose id is
        the subscribed one, and such a row replaces the shown order. */
    method OnUpdate(row: OrderRow)
      modifies this
      ensures loading == old(loading) && error == old(error) && channel == old(channel)
      ensures channel == Some(row.id) ==> order == Some(FromRow(row))
      ensures channel != Some(row.id) ==> order == old(order)
    {
      if channel == Some(row.id) {
        order := Some(FromRow(row));
      }
    }
  }
}
