/** The order tracking page: a search box that sets the tracked id, a
    four-step status timeline driven by the tracked order's status, and the
    order's item lines. */
module TrackOrder {
  import opened Wrappers
  import opened Orders
  import Seqs
  import Text

  datatype Step = Step(status: string, title: string, description: string)

  /** `statusSteps`, in lifecycle order. */
  const StatusSteps: seq<Step> := [
    Step("new", "Order Placed", "Your order has been received"),
    Step("preparing", "Preparing", "Our chefs are cooking your food"),
    Step("ready", "Ready", "Your order is ready for pickup"),
    Step("served", "Served", "Enjoy your meal!")
  ]

  /** The steps follow the lifecycle: step `i` is for the status of rank `i`. */
  lemma StepsFollowLifecycle()
    ensures |StatusSteps| == |LifecycleNames|
    ensures forall i :: 0 <= i < |StatusSteps| ==> StatusSteps[i].status == LifecycleNames[i]
  {
  }

  /** First step index whose status is `s`, searching from `from`. */
  function FindIndex(s: string, from: nat): (r: Option<nat>)
    requires from <= |StatusSteps|
    ensures r.Some? ==> from <= r.value < |StatusSteps| && StatusSteps[r.value].status == s
    ensures r.Some? ==> forall k :: from <= k < r.value ==> StatusSteps[k].status != s
    ensures r.None? ==> forall k :: from <= k < |StatusSteps| ==> StatusSteps[k].status != s
    decreases |StatusSteps| - from
  {
    if from == |StatusSteps| then None
    else if StatusSteps[from].status == s then Some(from)
    else FindIndex(s, from + 1)
  }

  /** `getStatusIndex`: the step of a stored status, with step 0 for a
      status that has no step. */
  function StatusIndex(s: string): (r: nat)
    ensures r < |StatusSteps|
    ensures s in LifecycleNames ==> StatusSteps[r].status == s
    ensures s !in LifecycleNames ==> r == 0
  {
    var found := FindIndex(s, 0);
    if found.Some? then found.value else 0
  }

  /** The step index of a lifecycle status is its rank; an unknown status is
      shown exactly like `new`. */
  lemma StatusIndexIsRank(st: Status)
    requires Canonical(st)
    ensures Rank(st).Some? ==> StatusIndex(Name(st)) == Rank(st).value
    ensures Rank(st).None? ==> StatusIndex(Name(st)) == StatusIndex("new")
  {
  }

  /** `currentStatusIndex`: -1 with no order. */
  function CurrentIndex(order: Option<Order>): (r: int)
    ensures order.None? <==> r == -1
    ensures order.Some? ==> 0 <= r < |StatusSteps|
  {
    if order.Some? then StatusIndex(Name(order.value.status)) else -1
  }

  /** How one step of the timeline is drawn. */
  predicate IsCompleted(index: nat, current: int)
  {
    index <= current
  }

  predicate IsCurrent(index: nat, current: int)
  {
    index == current
  }

  /** The connector below step `index` (none below the last step) is filled
      when the next step is reached. */
  function Connector(index: nat, current: int): (r: Option<bool>)
    requires index < |StatusSteps|
    ensures r.None? <==> index == |StatusSteps| - 1
  {
    if index < |StatusSteps| - 1 then Some(index < current) else None
  }

  /** With an order, exactly one step is current, completion is closed
      downward, and a connector is filled exactly when the step
      below it is completed. */
  lemma TimelineShape(order: Order, i: nat, j: nat)
    requires i < |StatusSteps| && j < |StatusSteps|
    ensures var cur := CurrentIndex(Some(order));
            && (IsCurrent(i, cur) && IsCurrent(j, cur) ==> i == j)
            && (exists k :: 0 <= k < |StatusSteps| && IsCurrent(k, cur))
            && (IsCompleted(i, cur) && j < i ==> IsCompleted(j, cur))
            && (i < |StatusSteps| - 1 ==> (Connector(i, cur) == Some(true) <==> IsCompleted(i + 1, cur)))
  {
    var cur := CurrentIndex(Some(order));
    assert IsCurrent(cur as nat, cur);
  }

  /** A served order shows every step completed; a new order only the
      first. */
  lemma TimelineEnds(order: Order)
    ensures order.status == Served ==>
              forall i :: 0 <= i < |StatusSteps| ==> IsCompleted(i, CurrentIndex(Some(order)))
    ensures order.status == New ==>
              forall i :: 0 <= i < |StatusSteps| ==> (IsCompleted(i, CurrentIndex(Some(order))) <==> i == 0)
  {
  }

  /** The page's search state. */
  class TrackOrderPage {
    var searchInput: string
    var orderId: string

    /** Both fields start from the `id` query parameter, or empty. */
    constructor (idParam: Option<string>)
      ensures orderId == searchInput
      ensures orderId == if idParam.Some? then idParam.value else ""
    {
      var initial := if idParam.Some? then idParam.value else "";
      orderId := initial;
      searchInput := initial;
    }

    method Type(input: string)
      modifies this
      ensures searchInput == input && orderId == old(orderId)
    {
      searchInput := input;
    }

    /** `handleSearch`: the tracked id becomes the trimmed input. */
    method HandleSearch()
      modifies this
      ensures searchInput == old(searchInput)
      ensures orderId == Text.Trim(searchInput)
      ensures orderId == "" || (!Text.IsJsWhitespace(orderId[0]) && !Text.IsJsWhitespace(orderId[|orderId| - 1]))
    {
      orderId := Text.Trim(searchInput);
    }

    /** The Track button is disabled while the trimmed input is empty. */
    predicate TrackDisabled()
      reads this
    {
      Text.Trim(searchInput) == ""
    }
  }

  /** The button is disabled exactly when the input is all white space, and
      a search from an enabled button always tracks a non-empty id. */
  lemma TrackDisabledIff(input: string)
    ensures Text.Trim(input) == "" <==> forall k :: 0 <= k < |input| ==> Text.IsJsWhitespace(input[k])
  {
    Text.TrimEmptyIff(input);
  }

  /** Which parts of the result area are shown. */
  datatype Sections = Sections(spinner: bool, errorCard: bool, details: bool)

  function Shown(order: Option<Order>, loading: bool, error: Option<string>): (r: Sections)
    ensures r.spinner ==> !r.errorCard && !r.details
    ensures r.spinner <==> loading
    ensures r.errorCard <==> error.Some? && !loading
    ensures r.details <==> order.Some? && !loading
  {
    Sections(loading, error.Some? && !loading, order.Some? && !loading)
  }

  /** The order id as displayed: its first eight characters, upper-cased. */
  function ShortId(id: string): (r: string)
    ensures |r| == if |id| < 8 then |id| else 8
    ensures forall i :: 0 <= i < |r| ==> r[i] == Text.UpperChar(id[i])
  {
    Text.ToUpper(Seqs.SliceTo(id, 8))
  }

  /** One item line: name, `×quantity`, and `₹` with price times quantity. */
  datatype ItemLine = ItemLine(name: string, quantity: string, amount: string)

  function ItemLineOf(item: OrderItem): (r: ItemLine)
    ensures r.name == item.name
    ensures r.quantity == "\U{00D7}" + Text.IntToString(item.quantity)
    ensures r.amount == "\U{20B9}" + Text.IntToString(item.price * item.quantity)
  {
    ItemLine(item.name, "\U{00D7}" + Text.IntToString(item.quantity),
             "\U{20B9}" + Text.IntToString(LineAmount(item)))
  }

  /** Two item lines look the same exactly when the items have the same
      name, the same quantity and the same line amount. */
  lemma ItemLinesAgree(x: OrderItem, y: OrderItem)
    ensures ItemLineOf(x) == ItemLineOf(y) <==>
            x.name == y.name && x.quantity == y.quantity && LineAmount(x) == LineAmount(y)
  {
    if ItemLineOf(x) == ItemLineOf(y) {
      assert Text.IntToString(x.quantity) == ItemLineOf(x).quantity[1..];
      assert Text.IntToString(y.quantity) == ItemLineOf(y).quantity[1..];
      Text.IntToStringInjective(x.quantity, y.quantity);
      assert Text.IntToString(LineAmount(x)) == ItemLineOf(x).amount[1..];
      assert Text.IntToString(LineAmount(y)) == ItemLineOf(y).amount[1..];
      Text.IntToStringInjective(LineAmount(x), LineAmount(y));
    }
  }
}
