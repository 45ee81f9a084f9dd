/** WhatsApp click-to-chat links (`https://wa.me/<phone>?text=<message>`):
    phone normalisation and the text of the three messages the café sends.
    `encodeURIComponent` is the parameter `encode`. */
module WhatsApp {
  import opened Wrappers
  import Seqs
  import Text
  import Orders

  /** The order fields a message shows. */
  datatype OrderDetails = OrderDetails(
    orderId: string,
    tableNumber: string,
    items: seq<Orders.OrderItem>,
    totalAmount: int,
    specialInstructions: Option<string>)

  /** `formatPhoneNumber`: the digits of `phone`, with the Indian country
      code "91" put in front of a ten-digit number. */
  function FormatPhoneNumber(phone: string): (r: string)
    ensures forall i :: 0 <= i < |r| ==> Text.IsDigit(r[i])
    ensures |r| != 10
    ensures |Text.Digits(phone)| == 10 ==> r == "91" + Text.Digits(phone)
    ensures |Text.Digits(phone)| != 10 ==> r == Text.Digits(phone)
  {
    var cleaned := Text.Digits(phone);
    if |cleaned| == 10 then "91" + cleaned else cleaned
  }

  /** Formatting a formatted number changes nothing: it is all digits and
      never exactly ten of them. */
  lemma FormatPhoneIdempotent(phone: string)
    ensures FormatPhoneNumber(FormatPhoneNumber(phone)) == FormatPhoneNumber(phone)
  {
    Text.DigitsOfDigits(FormatPhoneNumber(phone));
  }

  const LinkBase: string := "https://wa.me/"
  const TextParam: string := "?text="

  /** The link for a phone number and a message. */
  function WaLink(phone: string, message: string, encode: string -> string): (r: string)
    ensures Text.StartsWith(r, LinkBase + FormatPhoneNumber(phone) + TextParam)
    ensures r[|LinkBase + FormatPhoneNumber(phone) + TextParam|..] == encode(message)
  {
    LinkBase + FormatPhoneNumber(phone) + TextParam + encode(message)
  }

  /** A link determines the formatted number and the encoded text: the
      number is all digits, so it ends at the first '?'. */
  lemma WaLinkParts(p1: string, m1: string, p2: string, m2: string, encode: string -> string)
    requires WaLink(p1, m1, encode) == WaLink(p2, m2, encode)
    ensures FormatPhoneNumber(p1) == FormatPhoneNumber(p2)
    ensures encode(m1) == encode(m2)
  {
    var a, b := FormatPhoneNumber(p1), FormatPhoneNumber(p2);
    var r := WaLink(p1, m1, encode);
    var n := |LinkBase|;
    assert r[n..n + |a|] == a && r[n + |a|] == '?';
    assert WaLink(p2, m2, encode)[n..n + |b|] == b && WaLink(p2, m2, encode)[n + |b|] == '?';
    if |a| < |b| {
      assert false;
    } else if |b| < |a| {
      assert false;
    }
    assert a == r[n..n + |a|] == b;
  }

  /** `order.orderId.slice(0, 8)`. */
  function ShortId(id: string): (r: string)
    ensures r <= id && |r| == if |id| < 8 then |id| else 8
  {
    Seqs.SliceTo(id, 8)
  }

  /** A customer line: "• name × qty = ₹amount". */
  function CustomerItemLine(item: Orders.OrderItem): string
  {
    "• " + item.name + " × " + Text.IntToString(item.quantity)
      + " = ₹" + Text.IntToString(Orders.LineAmount(item))
  }

  /** A kitchen line: "• name × qty", without the price. */
  function KitchenItemLine(item: Orders.OrderItem): string
  {
    "• " + item.name + " × " + Text.IntToString(item.quantity)
  }

  /** The kitchen line is the customer line without its amount, so it does
      not depend on the price. */
  lemma KitchenLineOmitsPrice(item: Orders.OrderItem, price: int)
    ensures CustomerItemLine(item) == KitchenItemLine(item) + " = ₹" + Text.IntToString(Orders.LineAmount(item))
    ensures KitchenItemLine(item.(price := price)) == KitchenItemLine(item)
  {
  }

  function CustomerItemsList(items: seq<Orders.OrderItem>): string
  {
    Text.Join(Seqs.Map(CustomerItemLine, items), "\n")
  }

  function KitchenItemsList(items: seq<Orders.OrderItem>): string
  {
    Text.Join(Seqs.Map(KitchenItemLine, items), "\n")
  }

  lemma NumberHasNoNewline(i: int)
    ensures '\n' !in Text.IntToString(i)
  {
    var d := Text.NatToString(if i < 0 then -i else i);
    assert forall k :: 0 <= k < |d| ==> d[k] != '\n';
  }

  /** The customer item list splits back into its lines, one per item and in
      order, when no item name holds a line break. */
  lemma CustomerItemsListLines(items: seq<Orders.OrderItem>)
    requires |items| >= 1
    requires forall i :: 0 <= i < |items| ==> '\n' !in items[i].name
    ensures Text.Split(CustomerItemsList(items), '\n') == Seqs.Map(CustomerItemLine, items)
  {
    var lines := Seqs.Map(CustomerItemLine, items);
    forall i | 0 <= i < |lines|
      ensures '\n' !in lines[i]
    {
      NumberHasNoNewline(items[i].quantity);
      NumberHasNoNewline(Orders.LineAmount(items[i]));
    }
    Text.SplitJoin(lines, '\n');
  }

  /** The same for the kitchen list. */
  lemma KitchenItemsListLines(items: seq<Orders.OrderItem>)
    requires |items| >= 1
    requires forall i :: 0 <= i < |items| ==> '\n' !in items[i].name
    ensures Text.Split(KitchenItemsList(items), '\n') == Seqs.Map(KitchenItemLine, items)
  {
    var lines := Seqs.Map(KitchenItemLine, items);
    forall i | 0 <= i < |lines|
      ensures '\n' !in lines[i]
    {
      NumberHasNoNewline(items[i].quantity);
    }
    Text.SplitJoin(lines, '\n');
  }

  /** The note line of the confirmation, with its own line break; empty
      when there are no (or empty) instructions. */
  function CustomerNote(si: Option<string>): (r: string)
    ensures r == "" <==> !Text.Truthy(si)
  {
    if Text.Truthy(si) then "\U{1F4DD} Note: " + si.value + "\n" else ""
  }

  /** The lines of the confirmation message, joined by line breaks. */
  function CustomerLines(order: OrderDetails): seq<string>
  {
    [ "\U{1F389} *Order Confirmed - Bistro@17*",
      "",
      "Order #" + ShortId(order.orderId),
      "\U{1F4CD} Table " + order.tableNumber,
      "",
      "*Your Order:*",
      CustomerItemsList(order.items),
      "",
      "\U{1F4B0} *Total: ₹" + Text.IntToString(order.totalAmount) + "*",
      "",
      CustomerNote(order.specialInstructions),
      "Your order has been sent to the kitchen. We'll prepare it fresh for you!",
      "",
      "Thank you for dining with us! ☕\U{1F343}" ]
  }

  function CustomerMessage(order: OrderDetails): string
  {
    Text.Join(CustomerLines(order), "\n")
  }

  /** The confirmation shows the short id, the table, the item list and the
      total; it shows the note exactly when instructions are non-empty, and
      empty instructions give the same text as none. */
  lemma CustomerMessageShows(order: OrderDetails)
    ensures Text.Contains(CustomerMessage(order), "Order #" + ShortId(order.orderId))
    ensures Text.Contains(CustomerMessage(order), "\U{1F4CD} Table " + order.tableNumber)
    ensures Text.Contains(CustomerMessage(order), CustomerItemsList(order.items))
    ensures Text.Contains(CustomerMessage(order), "\U{1F4B0} *Total: ₹" + Text.IntToString(order.totalAmount) + "*")
    ensures Text.Truthy(order.specialInstructions) ==>
              Text.Contains(CustomerMessage(order), "\U{1F4DD} Note: " + order.specialInstructions.value)
    ensures !Text.Truthy(order.specialInstructions) ==>
              CustomerMessage(order) == CustomerMessage(order.(specialInstructions := None))
  {
    var lines := CustomerLines(order);
    Text.JoinContains(lines, "\n", 2);
    Text.JoinContains(lines, "\n", 3);
    Text.JoinContains(lines, "\n", 6);
    Text.JoinContains(lines, "\n", 8);
    if Text.Truthy(order.specialInstructions) {
      var note := "\U{1F4DD} Note: " + order.specialInstructions.value;
      Text.JoinContains(lines, "\n", 10);
      Text.ContainsInside("", note, "\n");
      assert "" + note + "\n" == lines[10];
      Text.ContainsTransitive(CustomerMessage(order), lines[10], note);
    }
  }

  /** Joining splits at any inner line break. */
  lemma {:induction false} JoinSplitAt(lines: seq<string>, k: nat)
    requires 0 < k < |lines|
    ensures Text.Join(lines, "\n") == Text.Join(lines[..k], "\n") + "\n" + Text.Join(lines[k..], "\n")
  {
    if k == 1 {
      assert lines[..1] == [lines[0]];
    } else {
      JoinSplitAt(lines[1..], k - 1);
      assert lines[1..][..k - 1] == lines[..k][1..];
      assert lines[1..][k - 1..] == lines[k..];
    }
  }

  /** The kitchen alert's closing line; empty without instructions. */
  function KitchenNote(si: Option<string>): (r: string)
    ensures r == "" <==> !Text.Truthy(si)
  {
    if Text.Truthy(si) then "⚠️ Special Instructions: " + si.value else ""
  }

  function KitchenLines(order: OrderDetails): seq<string>
  {
    [ "\U{1F514} *NEW ORDER - Table " + order.tableNumber + "*",
      "",
      "Order #" + ShortId(order.orderId),
      "",
      "*Items:*",
      KitchenItemsList(order.items),
      "",
      "\U{1F4B0} Total: ₹" + Text.IntToString(order.totalAmount),
      "",
      KitchenNote(order.specialInstructions) ]
  }

  function KitchenMessage(order: OrderDetails): string
  {
    Text.Join(KitchenLines(order), "\n")
  }

  /** The kitchen alert opens with the table line and shows the short id
      and the item list. */
  lemma KitchenMessageShows(order: OrderDetails)
    ensures Text.StartsWith(KitchenMessage(order), "\U{1F514} *NEW ORDER - Table " + order.tableNumber + "*\n")
    ensures Text.Contains(KitchenMessage(order), "Order #" + ShortId(order.orderId))
    ensures Text.Contains(KitchenMessage(order), KitchenItemsList(order.items))
  {
    var lines := KitchenLines(order);
    Text.JoinContains(lines, "\n", 2);
    Text.JoinContains(lines, "\n", 5);
    JoinSplitAt(lines, 1);
    assert lines[..1] == [lines[0]];
  }

  /** The kitchen alert ends with the instructions line when there are
      instructions, and with an empty line otherwise. */
  lemma KitchenMessageEnding(order: OrderDetails)
    ensures Text.Truthy(order.specialInstructions) ==>
              Text.EndsWith(KitchenMessage(order), "\n" + KitchenNote(order.specialInstructions))
    ensures !Text.Truthy(order.specialInstructions) ==>
              Text.EndsWith(KitchenMessage(order), "\n")
  {
    var lines := KitchenLines(order);
    Text.JoinEndsWithLast(lines, "\n");
    assert lines[|lines| - 1] == KitchenNote(order.specialInstructions);
    assert "\n" + "" == "\n";
  }

  function ReadyMessage(tableNumber: string): string
  {
    Text.Join(
      [ "✅ *Your Order is Ready!*",
        "",
        "Hi there! \U{1F44B}",
        "",
        "Your order at Bistro@17 is ready to be served at Table " + tableNumber + ".",
        "",
        "Enjoy your meal! \U{1F37D}️☕" ],
      "\n")
  }

  /** The ready notice names the table. */
  lemma ReadyMessageNamesTable(tableNumber: string)
    ensures Text.Contains(ReadyMessage(tableNumber), "Table " + tableNumber + ".")
  {
    var line := "Your order at Bistro@17 is ready to be served at Table " + tableNumber + ".";
    Text.JoinContains(
      [ "✅ *Your Order is Ready!*", "", "Hi there! \U{1F44B}", "", line, "",
        "Enjoy your meal! \U{1F37D}️☕" ], "\n", 4);
    Text.ContainsInside("Your order at Bistro@17 is ready to be served at ", "Table " + tableNumber + ".", "");
    assert "Your order at Bistro@17 is ready to be served at " + ("Table " + tableNumber + ".") + "" == line;
    Text.ContainsTransitive(ReadyMessage(tableNumber), line, "Table " + tableNumber + ".");
  }

  /** `generateCustomerConfirmationLink`. */
  function CustomerConfirmationLink(customerPhone: string, order: OrderDetails, encode: string -> string): (r: string)
    ensures r == WaLink(customerPhone, CustomerMessage(order), encode)
  {
    LinkBase + FormatPhoneNumber(customerPhone) + TextParam + encode(CustomerMessage(order))
  }

  /** `generateKitchenAlertLink`. */
  function KitchenAlertLink(staffPhone: string, order: OrderDetails, encode: string -> string): (r: string)
    ensures r == WaLink(staffPhone, KitchenMessage(order), encode)
  {
    LinkBase + FormatPhoneNumber(staffPhone) + TextParam + encode(KitchenMessage(order))
  }

  /** `generateOrderReadyLink`. */
  function OrderReadyLink(customerPhone: string, tableNumber: string, encode: string -> string): (r: string)
    ensures r == WaLink(customerPhone, ReadyMessage(tableNumber), encode)
  {
    LinkBase + FormatPhoneNumber(customerPhone) + TextParam + encode(ReadyMessage(tableNumber))
  }
}
