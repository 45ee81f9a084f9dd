/** The order page: the customer picks a table from a fixed list and places
    the cart's contents as an order. Placement is simulated: validation,
    then a placing flag, then the confirmation, and only later the cart is
    cleared and the customer sent home. */
module PlaceOrder {
  import opened Wrappers
  import Text

  /** The selectable tables. */
  const TableNumbers: seq<string> := ["1", "2", "3", "4", "5", "6", "7", "8", "9", "10", "11", "12"]

  /** The selectable tables are exactly the decimal labels of 1..12, in
      order. */
  lemma TableNumbersAreOneToTwelve()
    ensures |TableNumbers| == 12
    ensures forall i :: 0 <= i < 12 ==> TableNumbers[i] == Text.NatToString(i + 1)
  {
    assert Text.NatToString(10) == "10";
    assert Text.NatToString(11) == "11";
    assert Text.NatToString(12) == "12";
  }

  /** One cart line as the page reads it from the cart. */
  datatype CartLine = CartLine(id: string, name: string, price: int, quantity: int)

  const TableMissing: string := "Please select your table number"
  const CartEmpty: string := "Your cart is empty"
  const Placed: string := "Order placed successfully!"

  /** The checks of `handlePlaceOrder`, in their order: the table number
      first, then the cart. */
  function Validate(tableNumber: string, items: seq<CartLine>): (r: Option<string>)
    ensures r == None <==> tableNumber != "" && items != []
    ensures tableNumber == "" ==> r == Some(TableMissing)
    ensures tableNumber != "" && items == [] ==> r == Some(CartEmpty)
  {
    if tableNumber == "" then Some(TableMissing)
    else if items == [] then Some(CartEmpty)
    else None
  }

  /** The page with the part of the cart it uses. */
  class OrderPage {
    var items: seq<CartLine>
    var tableNumber: string
    var isPlacing: bool
    var orderPlaced: bool
    /** The 3-second redirect is scheduled. */
    var redirectPending: bool
    /** The page navigated to "/". */
    var redirected: bool

    constructor (items0: seq<CartLine>, table0: string)
      ensures items == items0 && tableNumber == table0
      ensures !isPlacing && !orderPlaced && !redirectPending && !redirected
      ensures Valid()
    {
      items := items0;
      tableNumber := table0;
      isPlacing := false;
      orderPlaced := false;
      redirectPending := false;
      redirected := false;
    }

    method SelectTable(t: string)
      requires t in TableNumbers
      modifies this
      ensures tableNumber == t
      ensures items == old(items) && isPlacing == old(isPlacing) && orderPlaced == old(orderPlaced)
      ensures redirectPending == old(redirectPending) && redirected == old(redirected)
    {
      tableNumber := t;
    }

    /** `handlePlaceOrder`: a failed check reports its message and changes
        nothing; otherwise placing starts, the order is confirmed and the
        redirect is scheduled, with the cart still intact. */
    method HandlePlaceOrder() returns (notice: string)
      requires Valid()
      modifies this
      ensures Valid()
      ensures items == old(items) && tableNumber == old(tableNumber) && redirected == old(redirected)
      ensures Validate(old(tableNumber), old(items)).Some? ==>
                notice == Validate(old(tableNumber), old(items)).value &&
                isPlacing == old(isPlacing) && orderPlaced == old(orderPlaced) &&
                redirectPending == old(redirectPending)
      ensures Validate(old(tableNumber), old(items)).None? ==>
                notice == Placed && isPlacing && orderPlaced && redirectPending
    {
      if tableNumber == "" {
        return TableMissing;
      }
      if |items| == 0 {
        return CartEmpty;
      }
      isPlacing := true;
      orderPlaced := true;
      notice := Placed;
      redirectPending := true;
    }

    /** The redirect timer: the cart is emptied and the page goes home. */
    method RedirectTimerFired()
      requires Valid()
      modifies this
      ensures Valid()
      ensures tableNumber == old(tableNumber) && isPlacing == old(isPlacing) && orderPlaced == old(orderPlaced)
      ensures old(redirectPending) ==> items == [] && redirected && !redirectPending
      ensures !old(redirectPending) ==> items == old(items) && redirected == old(redirected) && !redirectPending
    {
      if redirectPending {
        items := [];
        redirected := true;
        redirectPending := false;
      }
    }

    /** The redirect, and with it the clearing of the cart, only ever
        follows a confirmed order. */
    predicate Valid()
      reads this
    {
      (redirectPending || redirected) ==> orderPlaced && isPlacing
    }
  }

  datatype View = Confirmation(table: string) | NoItems | Form

  /** Which screen the page shows: the confirmation wins over the empty-cart
      notice (the cart is empty after the redirect clears it). */
  function ViewOf(orderPlaced: bool, tableNumber: string, items: seq<CartLine>): (v: View)
    ensures orderPlaced <==> v.Confirmation?
    ensures v.Confirmation? ==> v.table == tableNumber
    ensures v == NoItems <==> !orderPlaced && items == []
  {
    if orderPlaced then Confirmation(tableNumber)
    else if items == [] then NoItems
    else Form
  }

  /** One summary line: "name × quantity" and the amount price × quantity. */
  datatype SummaryLine = SummaryLine(caption: string, amount: int)

  function SummaryLineOf(item: CartLine): (r: SummaryLine)
    ensures r.amount == item.price * item.quantity
    ensures Text.StartsWith(r.caption, item.name)
    ensures r.caption == item.name + Separator + Text.IntToString(item.quantity)
  {
    SummaryLine(item.name + Separator + Text.IntToString(item.quantity), item.price * item.quantity)
  }

  /** What stands between an item's name and its quantity on a summary line. */
  const Separator: string := " \U{00D7} "

  /** When a longer name is followed by a shorter one, the first caption's
      multiplication sign falls where the second caption has a space or a
      character of its printed quantity, so the captions differ. */
  lemma SeparatorMisplaced(x: CartLine, y: CartLine)
    requires |x.name| < |y.name|
    ensures SummaryLineOf(x).caption != SummaryLineOf(y).caption
  {
    var cx, cy := SummaryLineOf(x).caption, SummaryLineOf(y).caption;
    var sx := Text.IntToString(x.quantity);
    var p := |y.name| + 1;
    assert cy[p] == '\U{00D7}';
    if p < |cx| {
      Text.PrintedChars(x.quantity);
      if p == |x.name| + 2 {
        assert cx[p] == ' ';
      } else {
        assert cx[p] == sx[p - |x.name| - 3];
      }
    }
  }

  /** Two summary captions are equal exactly when the items have the same
      name and the same quantity: a caption can be read back. */
  lemma SummaryCaptionsAgree(x: CartLine, y: CartLine)
    ensures SummaryLineOf(x).caption == SummaryLineOf(y).caption <==> x.name == y.name && x.quantity == y.quantity
  {
    var cx, cy := SummaryLineOf(x).caption, SummaryLineOf(y).caption;
    if cx == cy {
      if |x.name| < |y.name| {
        SeparatorMisplaced(x, y);
      } else if |y.name| < |x.name| {
        SeparatorMisplaced(y, x);
      } else {
        assert x.name == cx[..|x.name|] == cy[..|y.name|] == y.name;
        var n := |x.name| + |Separator|;
        assert Text.IntToString(x.quantity) == cx[n..] == cy[n..] == Text.IntToString(y.quantity);
        Text.IntToStringInjective(x.quantity, y.quantity);
      }
    }
  }
}
