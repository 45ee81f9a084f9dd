/** The static menu bundled with the site: six categories and the dishes
    listed under them, with the same two filters as the live catalog. */
module MenuData {
  import opened Wrappers
  import Seqs

  datatype MenuItem = MenuItem(
    id: string,
    name: string,
    price: int,
    description: Option<string>,
    isVeg: bool,
    category: string,
    image: Option<string>,
    isPopular: Option<bool>)

  datatype Category = Category(id: string, name: string, icon: string, description: string)

  const Categories: seq<Category> := [
    Category("starters", "Starters", "\U{1F35F}", "Crispy beginnings"),
    Category("burgers", "Burgers", "\U{1F354}", "Juicy goodness"),
    Category("pizza-pasta", "Pizza & Pasta", "\U{1F355}", "Italian favorites"),
    Category("chinese", "Chinese", "\U{1F35C}", "Wok-fresh flavors"),
    Category("beverages", "Beverages", "\U{2615}", "Sip & chill"),
    Category("desserts", "Desserts", "\U{1F370}", "Sweet endings")
  ]

  const CategoryIds: seq<string> := ["starters", "burgers", "pizza-pasta", "chinese", "beverages", "desserts"]

  const Starters: seq<MenuItem> := [
    MenuItem("s1", "Peri-Peri Fries", 99, Some("Crispy fries with spicy peri-peri seasoning"), true, "starters", None, Some(true)),
    MenuItem("s2", "Cheese Loaded Fries", 149, Some("Golden fries smothered in melted cheese"), true, "starters", None, None),
    MenuItem("s3", "Garlic Bread", 89, Some("Toasted bread with garlic butter"), true, "starters", None, None),
    MenuItem("s4", "Cheese Garlic Bread", 119, Some("Garlic bread topped with cheese"), true, "starters", None, None),
    MenuItem("s5", "Paneer Tikka", 179, Some("Grilled cottage cheese with spices"), true, "starters", None, None),
    MenuItem("s6", "Chicken Wings", 199, Some("Crispy wings with your choice of sauce"), false, "starters", None, None)
  ]

  const Burgers: seq<MenuItem> := [
    MenuItem("b1", "Classic Veg Burger", 99, Some("Crispy patty with fresh veggies"), true, "burgers", None, None),
    MenuItem("b2", "Cheese Burst Burger", 139, Some("Loaded with melted cheese"), true, "burgers", None, Some(true)),
    MenuItem("b3", "Paneer Tikka Burger", 149, Some("Spiced paneer patty"), true, "burgers", None, None),
    MenuItem("b4", "Chicken Burger", 159, Some("Juicy chicken patty"), false, "burgers", None, None),
    MenuItem("b5", "Double Chicken Burger", 219, Some("Double the chicken, double the joy"), false, "burgers", None, None)
  ]

  const PizzaPasta: seq<MenuItem> := [
    MenuItem("p1", "Margherita Pizza", 199, Some("Classic tomato and mozzarella"), true, "pizza-pasta", None, None),
    MenuItem("p2", "Veggie Supreme Pizza", 279, Some("Loaded with garden fresh veggies"), true, "pizza-pasta", None, None),
    MenuItem("p3", "Chicken Tikka Pizza", 329, Some("Spiced chicken with tikka flavor"), false, "pizza-pasta", None, None),
    MenuItem("p4", "White Sauce Pasta", 179, Some("Creamy Alfredo pasta"), true, "pizza-pasta", None, Some(true)),
    MenuItem("p5", "Red Sauce Pasta", 169, Some("Tangy tomato-based pasta"), true, "pizza-pasta", None, None),
    MenuItem("p6", "Pink Sauce Pasta", 189, Some("Best of both worlds"), true, "pizza-pasta", None, None)
  ]

  const Chinese: seq<MenuItem> := [
    MenuItem("c1", "Veg Hakka Noodles", 149, Some("Wok-tossed noodles with veggies"), true, "chinese", None, None),
    MenuItem("c2", "Schezwan Noodles", 169, Some("Spicy schezwan flavored noodles"), true, "chinese", None, None),
    MenuItem("c3", "Chicken Noodles", 189, Some("Noodles with tender chicken"), false, "chinese", None, None),
    MenuItem("c4", "Veg Fried Rice", 149, Some("Aromatic rice with vegetables"), true, "chinese", None, None),
    MenuItem("c5", "Chicken Fried Rice", 179, Some("Rice with succulent chicken pieces"), false, "chinese", None, None),
    MenuItem("c6", "Manchurian", 159, Some("Crispy veg balls in tangy sauce"), true, "chinese", None, None)
  ]

  const Beverages: seq<MenuItem> := [
    MenuItem("d1", "Cappuccino", 99, Some("Rich espresso with steamed milk foam"), true, "beverages", None, Some(true)),
    MenuItem("d2", "Caf\U{00E9} Latte", 109, Some("Smooth espresso with creamy milk"), true, "beverages", None, Some(true)),
    MenuItem("d3", "Cold Coffee", 119, Some("Chilled coffee with ice cream"), true, "beverages", None, None),
    MenuItem("d4", "Mocha", 129, Some("Espresso with chocolate"), true, "beverages", None, None),
    MenuItem("d5", "Hot Chocolate", 99, Some("Rich cocoa delight"), true, "beverages", None, None),
    MenuItem("d6", "Fresh Lime Soda", 69, Some("Refreshing citrus fizz"), true, "beverages", None, None),
    MenuItem("d7", "Mojito", 89, Some("Minty fresh cooler"), true, "beverages", None, None),
    MenuItem("d8", "Oreo Shake", 139, Some("Creamy Oreo milkshake"), true, "beverages", None, None)
  ]

  const Desserts: seq<MenuItem> := [
    MenuItem("ds1", "Brownie", 89, Some("Rich chocolate brownie"), true, "desserts", None, Some(true)),
    MenuItem("ds2", "Brownie with Ice Cream", 139, Some("Warm brownie with vanilla ice cream"), true, "desserts", None, None),
    MenuItem("ds3", "Chocolate Lava Cake", 149, Some("Molten chocolate center"), true, "desserts", None, None),
    MenuItem("ds4", "Cheesecake", 159, Some("Creamy New York style"), true, "desserts", None, None)
  ]

  /** `menuItems`: the dishes, grouped by category in menu order. */
  const MenuItems: seq<MenuItem> := Starters + Burgers + PizzaPasta + Chinese + Beverages + Desserts

  function Id(item: MenuItem): string
  {
    item.id
  }

  predicate Popular(item: MenuItem)
  {
    item.isPopular == Some(true)
  }

  /** `getItemsByCategory`: the dishes of one category, in menu order. */
  function GetItemsByCategory(categoryId: string): (r: seq<MenuItem>)
    ensures Seqs.IsSubsequence(r, MenuItems)
    ensures forall x :: x in r <==> x in MenuItems && x.category == categoryId
  {
    var p := (item: MenuItem) => item.category == categoryId;
    Seqs.FilterIsSubsequence(p, MenuItems);
    assert forall x :: x in Seqs.Filter(p, MenuItems) <==> x in MenuItems && p(x) by {
      forall x { Seqs.FilterMembership(p, MenuItems, x); }
    }
    Seqs.Filter(p, MenuItems)
  }

  /** `getPopularItems`: the dishes marked popular, in menu order. */
  function GetPopularItems(): (r: seq<MenuItem>)
    ensures Seqs.IsSubsequence(r, MenuItems)
    ensures forall x :: x in r <==> x in MenuItems && Popular(x)
  {
    Seqs.FilterIsSubsequence(Popular, MenuItems);
    assert forall x :: x in Seqs.Filter(Popular, MenuItems) <==> x in MenuItems && Popular(x) by {
      forall x { Seqs.FilterMembership(Popular, MenuItems, x); }
    }
    Seqs.Filter(Popular, MenuItems)
  }

  /** The six category ids are those of `Categories`, in order. */
  lemma CategoryIdsMatch()
    ensures |Categories| == |CategoryIds| == 6
    ensures forall i :: 0 <= i < 6 ==> Categories[i].id == CategoryIds[i]
  {
  }

  /** Every dish belongs to one of the six categories. */
  lemma EveryItemHasCategory()
    ensures |MenuItems| == 35
    ensures forall i :: 0 <= i < |MenuItems| ==> MenuItems[i].category in CategoryIds
  {
  }

  /** Every price is positive. */
  lemma PricesPositive()
    ensures forall i :: 0 <= i < |MenuItems| ==> MenuItems[i].price > 0
  {
  }

  /** Where an id's letter comes in menu order. */
  function LetterRank(c: char): int
  {
    if c == 's' then 0
    else if c == 'b' then 1
    else if c == 'p' then 2
    else if c == 'c' then 3
    else 4
  }

  /** A number that orders the ids: the letter's place, the longer "ds"
      prefix after "d", then the final digit. */
  function IdRank(item: MenuItem): int
  {
    var id := item.id;
    if id == [] then 0
    else 100 * LetterRank(id[0]) + (if |id| == 3 then 50 else 0) + (id[|id| - 1] as int - '0' as int)
  }

  predicate Increasing(s: seq<MenuItem>)
  {
    forall k :: 0 <= k < |s| - 1 ==> IdRank(s[k]) < IdRank(s[k + 1])
  }

  /** Within each category the ids rank strictly increasing. */
  lemma StartersIncreasing() ensures Increasing(Starters) {}
  lemma BurgersIncreasing() ensures Increasing(Burgers) {}
  lemma PizzaPastaIncreasing() ensures Increasing(PizzaPasta) {}
  lemma ChineseIncreasing() ensures Increasing(Chinese) {}
  lemma BeveragesIncreasing() ensures Increasing(Beverages) {}
  lemma DessertsIncreasing() ensures Increasing(Desserts) {}

  /** Each category's last id ranks below the next category's first. */
  lemma BoundariesIncreasing()
    ensures IdRank(Starters[|Starters| - 1]) < IdRank(Burgers[0])
    ensures IdRank(Burgers[|Burgers| - 1]) < IdRank(PizzaPasta[0])
    ensures IdRank(PizzaPasta[|PizzaPasta| - 1]) < IdRank(Chinese[0])
    ensures IdRank(Chinese[|Chinese| - 1]) < IdRank(Beverages[0])
    ensures IdRank(Beverages[|Beverages| - 1]) < IdRank(Desserts[0])
  {
  }

  lemma {:induction false} IncreasingAppend(a: seq<MenuItem>, b: seq<MenuItem>)
    requires Increasing(a) && Increasing(b) && a != [] && b != []
    requires IdRank(a[|a| - 1]) < IdRank(b[0])
    ensures Increasing(a + b)
  {
    forall k | 0 <= k < |a + b| - 1
      ensures IdRank((a + b)[k]) < IdRank((a + b)[k + 1])
    {
      if k + 1 < |a| {
      } else if k + 1 == |a| {
      } else {
        assert (a + b)[k] == b[k - |a|] && (a + b)[k + 1] == b[k - |a| + 1];
      }
    }
  }

  /** No two dishes share an id: listed in menu order, the ids rank
      strictly increasing. */
  lemma IdsDistinct()
    ensures forall i, j :: 0 <= i < j < |MenuItems| ==> MenuItems[i].id != MenuItems[j].id
  {
    StartersIncreasing();
    BurgersIncreasing();
    PizzaPastaIncreasing();
    ChineseIncreasing();
    BeveragesIncreasing();
    DessertsIncreasing();
    BoundariesIncreasing();
    IncreasingAppend(Starters, Burgers);
    IncreasingAppend(Starters + Burgers, PizzaPasta);
    IncreasingAppend(Starters + Burgers + PizzaPasta, Chinese);
    IncreasingAppend(Starters + Burgers + PizzaPasta + Chinese, Beverages);
    IncreasingAppend(Starters + Burgers + PizzaPasta + Chinese + Beverages, Desserts);
    Seqs.IncreasingKeys(MenuItems, IdRank);
  }

  /** The popular dishes of each category. */
  lemma PopularStarters()
    ensures Seqs.Filter(Popular, Starters) == [Starters[0]]
  {
    Seqs.FilterNone(Popular, Starters[1..]);
  }

  lemma PopularBurgers()
    ensures Seqs.Filter(Popular, Burgers) == [Burgers[1]]
  {
    Seqs.FilterNone(Popular, Burgers[2..]);
    assert Burgers[1..][1..] == Burgers[2..];
  }

  lemma PopularPizzaPasta()
    ensures Seqs.Filter(Popular, PizzaPasta) == [PizzaPasta[3]]
  {
    Seqs.FilterNone(Popular, PizzaPasta[..3]);
    Seqs.FilterNone(Popular, PizzaPasta[4..]);
    Seqs.FilterAppend(Popular, PizzaPasta[..3], PizzaPasta[3..]);
    assert PizzaPasta == PizzaPasta[..3] + PizzaPasta[3..];
    assert PizzaPasta[3..][1..] == PizzaPasta[4..];
  }

  lemma PopularChinese()
    ensures Seqs.Filter(Popular, Chinese) == []
  {
    Seqs.FilterNone(Popular, Chinese);
  }

  lemma PopularBeverages()
    ensures Seqs.Filter(Popular, Beverages) == [Beverages[0], Beverages[1]]
  {
    var tail := Beverages[2..];
    Seqs.FilterNone(Popular, tail);
    assert Beverages[1..][1..] == tail;
    assert Seqs.Filter(Popular, Beverages[1..]) == [Beverages[1]] + Seqs.Filter(Popular, tail);
  }

  lemma PopularDesserts()
    ensures Seqs.Filter(Popular, Desserts) == [Desserts[0]]
  {
    Seqs.FilterNone(Popular, Desserts[1..]);
  }

  /** The popular dishes, as entries of their categories, built up one
      category at a time. */
  lemma PopularUpToBurgers()
    ensures Seqs.Filter(Popular, Starters + Burgers) == [Starters[0], Burgers[1]]
  {
    PopularStarters();
    PopularBurgers();
    Seqs.FilterAppend(Popular, Starters, Burgers);
  }

  lemma PopularUpToPizzaPasta()
    ensures Seqs.Filter(Popular, Starters + Burgers + PizzaPasta) == [Starters[0], Burgers[1], PizzaPasta[3]]
  {
    PopularUpToBurgers();
    PopularPizzaPasta();
    Seqs.FilterAppend(Popular, Starters + Burgers, PizzaPasta);
  }

  lemma PopularUpToChinese()
    ensures Seqs.Filter(Popular, Starters + Burgers + PizzaPasta + Chinese) == [Starters[0], Burgers[1], PizzaPasta[3]]
  {
    PopularUpToPizzaPasta();
    PopularChinese();
    Seqs.FilterAppend(Popular, Starters + Burgers + PizzaPasta, Chinese);
  }

  lemma PopularUpToBeverages()
    ensures Seqs.Filter(Popular, Starters + Burgers + PizzaPasta + Chinese + Beverages) ==
            [Starters[0], Burgers[1], PizzaPasta[3], Beverages[0], Beverages[1]]
  {
    PopularUpToChinese();
    PopularBeverages();
    Seqs.FilterAppend(Popular, Starters + Burgers + PizzaPasta + Chinese, Beverages);
  }

  lemma PopularItems()
    ensures GetPopularItems() == [Starters[0], Burgers[1], PizzaPasta[3], Beverages[0], Beverages[1], Desserts[0]]
  {
    PopularUpToBeverages();
    PopularDesserts();
    Seqs.FilterAppend(Popular, Starters + Burgers + PizzaPasta + Chinese + Beverages, Desserts);
  }

  /** The ids of the popular entries. */
  lemma PopularEntryIds()
    ensures Seqs.Map(Id, [Starters[0], Burgers[1], PizzaPasta[3], Beverages[0], Beverages[1], Desserts[0]])
            == ["s1", "b2", "p4", "d1", "d2", "ds1"]
  {
  }

  /** The popular dishes are, in order, s1, b2, p4, d1, d2 and ds1. */
  lemma PopularIds()
    ensures Seqs.Map(Id, GetPopularItems()) == ["s1", "b2", "p4", "d1", "d2", "ds1"]
  {
    PopularItems();
    PopularEntryIds();
  }
}
