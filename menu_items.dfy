/** The live menu catalog: rows of the `menu_items` table read into menu
    items, and the category and popularity filters the menu views use. */
module MenuItems {
  import opened Wrappers
  import Seqs

  datatype MenuItem = MenuItem(
    id: string,
    name: string,
    price: int,
    description: Option<string>,
    isVeg: bool,
    category: string,
    image: Option<string>,
    isPopular: bool,
    isAvailable: bool)

  /** A `menu_items` row as stored. */
  datatype MenuRow = MenuRow(
    id: string,
    name: string,
    price: int,
    description: Option<string>,
    isVeg: bool,
    category: string,
    imageUrl: Option<string>,
    isPopular: bool,
    isAvailable: bool)

  datatype Category = Category(id: string, name: string, icon: string, description: string)

  /** The six fixed categories, in menu order. */
  const Categories: seq<Category> := [
    Category("Starters", "Starters", "\U{1F35F}", "Crispy beginnings"),
    Category("Burgers", "Burgers", "\U{1F354}", "Juicy goodness"),
    Category("Pizza & Pasta", "Pizza & Pasta", "\U{1F355}", "Italian favorites"),
    Category("Chinese", "Chinese", "\U{1F35C}", "Wok-fresh flavors"),
    Category("Beverages", "Beverages", "\U{2615}", "Sip & chill"),
    Category("Desserts", "Desserts", "\U{1F370}", "Sweet endings")
  ]

  /** There are six categories, each identified by its own name, and no two
      share an id. */
  lemma CategoriesShape()
    ensures |Categories| == 6
    ensures forall i :: 0 <= i < |Categories| ==> Categories[i].id == Categories[i].name
    ensures forall i, j :: 0 <= i < j < |Categories| ==> Categories[i].id != Categories[j].id
  {
  }

  /** The row transform: fields are copied under their new names, and an
      empty or absent image URL becomes no image. */
  function ToMenuItem(row: MenuRow): (item: MenuItem)
    ensures item.id == row.id && item.name == row.name && item.category == row.category
    ensures item.price == row.price && item.description == row.description
    ensures item.isVeg == row.isVeg && item.isPopular == row.isPopular && item.isAvailable == row.isAvailable
    ensures item.image.None? <==> row.imageUrl.None? || row.imageUrl.value == ""
    ensures item.image.Some? ==> item.image == row.imageUrl
  {
    MenuItem(row.id, row.name, row.price, row.description, row.isVeg, row.category,
             if row.imageUrl.Some? && row.imageUrl.value != "" then row.imageUrl else None,
             row.isPopular, row.isAvailable)
  }

  /** The query condition: only available rows are requested. */
  function RequestedRows(table: seq<MenuRow>): (r: seq<MenuRow>)
    ensures forall i :: 0 <= i < |r| ==> r[i].isAvailable
    ensures Seqs.IsSubsequence(r, table)
    ensures forall x :: x in r <==> x in table && x.isAvailable
  {
    var p := (row: MenuRow) => row.isAvailable;
    Seqs.FilterIsSubsequence(p, table);
    assert forall x :: x in Seqs.Filter(p, table) <==> x in table && p(x) by {
      forall x { Seqs.FilterMembership(p, table, x); }
    }
    Seqs.Filter(p, table)
  }

  /** `fetchMenuItems` on the query's answer: an error is raised, rows are
      transformed one to one, in order. */
  function FetchMenuItems(response: Result<seq<MenuRow>, string>): (r: Result<seq<MenuItem>, string>)
    ensures response.Err? <==> r.Err?
    ensures r.Err? ==> r.error == response.error
    ensures r.Ok? ==> |r.value| == |response.value|
    ensures r.Ok? ==> forall i :: 0 <= i < |r.value| ==> r.value[i] == ToMenuItem(response.value[i])
  {
    if response.Err? then Err(response.error) else Ok(Seqs.Map(ToMenuItem, response.value))
  }

  /** Every item fetched for the menu is available. */
  lemma FetchedAreAvailable(table: seq<MenuRow>)
    ensures forall i :: 0 <= i < |FetchMenuItems(Ok(RequestedRows(table))).value| ==>
              FetchMenuItems(Ok(RequestedRows(table))).value[i].isAvailable
  {
  }

  /** `getItemsByCategory`: the items of that category, in catalog order. */
  function GetItemsByCategory(items: seq<MenuItem>, categoryId: string): (r: seq<MenuItem>)
    ensures Seqs.IsSubsequence(r, items)
    ensures forall i :: 0 <= i < |r| ==> r[i].category == categoryId
    ensures forall x :: x in r <==> x in items && x.category == categoryId
  {
    var p := (item: MenuItem) => item.category == categoryId;
    Seqs.FilterIsSubsequence(p, items);
    assert forall x :: x in Seqs.Filter(p, items) <==> x in items && p(x) by {
      forall x { Seqs.FilterMembership(p, items, x); }
    }
    Seqs.Filter(p, items)
  }

  /** `getPopularItems`: the popular items, in catalog order. */
  function GetPopularItems(items: seq<MenuItem>): (r: seq<MenuItem>)
    ensures Seqs.IsSubsequence(r, items)
    ensures forall i :: 0 <= i < |r| ==> r[i].isPopular
    ensures forall x :: x in r <==> x in items && x.isPopular
  {
    var p := (item: MenuItem) => item.isPopular;
    Seqs.FilterIsSubsequence(p, items);
    assert forall x :: x in Seqs.Filter(p, items) <==> x in items && p(x) by {
      forall x { Seqs.FilterMembership(p, items, x); }
    }
    Seqs.Filter(p, items)
  }

  /** The category views split the menu: across distinct categories every
      item is listed exactly under its own category. */
  lemma CategoryOfListed(items: seq<MenuItem>, x: MenuItem, c: string)
    requires x in items
    ensures x in GetItemsByCategory(items, c) <==> c == x.category
  {
  }
}
