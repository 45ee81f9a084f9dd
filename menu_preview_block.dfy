/** The menu preview block: a few dishes from the live menu, by default the
    popular ones, each with an add-to-cart button. */
module MenuPreviewBlock {
  import opened Wrappers
  import opened CafeWebsite
  import MenuItems
  import Seqs
  import Text

  const DefaultHeading: string := "Our Popular Dishes"
  const DefaultShowCount: int := 6
  const SkeletonCards: nat := 3

  /** The block settings after destructuring defaults (which apply only to
      absent keys, not to empty values). */
  datatype Settings = Settings(heading: string, description: Option<string>, showCount: int, filterPopular: bool)

  function SettingsOf(data: BlockData): (s: Settings)
    ensures data.heading.None? ==> s.heading == DefaultHeading
    ensures data.heading.Some? ==> s.heading == data.heading.value
    ensures s.description == data.description
    ensures s.showCount == if data.showCount.Some? then data.showCount.value else DefaultShowCount
    ensures s.filterPopular <==> data.filterPopular != Some(false)
  {
    Settings(
      if data.heading.Some? then data.heading.value else DefaultHeading,
      data.description,
      if data.showCount.Some? then data.showCount.value else DefaultShowCount,
      if data.filterPopular.Some? then data.filterPopular.value else true)
  }

  /** The items shown: popular items first filtered when asked, then the
      first `showCount` (with JavaScript `slice` semantics). */
  function Selection(items: seq<MenuItems.MenuItem>, showCount: int, filterPopular: bool): (r: seq<MenuItems.MenuItem>)
    ensures Seqs.IsSubsequence(r, items)
    ensures filterPopular ==> forall i :: 0 <= i < |r| ==> r[i].isPopular
    ensures filterPopular ==> r <= MenuItems.GetPopularItems(items)
    ensures !filterPopular ==> r <= items
    ensures 0 <= showCount ==> |r| <= showCount
  {
    var pool := if filterPopular then MenuItems.GetPopularItems(items) else items;
    var r := Seqs.SliceTo(pool, showCount);
    Seqs.PrefixIsSubsequence(r, pool);
    if filterPopular then Seqs.SubsequenceTransitive(r, pool, items); r
    else r
  }

  /** Among popular items, the selection is exactly the first `showCount`
      of them when that many exist. */
  lemma SelectionLength(items: seq<MenuItems.MenuItem>, showCount: int, filterPopular: bool)
    requires 0 <= showCount
    ensures var pool := if filterPopular then MenuItems.GetPopularItems(items) else items;
            |Selection(items, showCount, filterPopular)| == if showCount < |pool| then showCount else |pool|
  {
  }

  datatype Header = Header(heading: string, description: Option<string>)

  /** One dish card: its item, its image, and whether the Popular badge is
      shown. The card's "+" button adds exactly `item` to the cart. */
  datatype Card = Card(item: MenuItems.MenuItem, image: Option<string>, popularBadge: bool)

  datatype PreviewView = Skeleton(header: Option<Header>, placeholders: nat) | Hidden | Preview(header: Option<Header>, cards: seq<Card>)

  function HeaderOf(s: Settings): (h: Option<Header>)
    ensures h.Some? <==> s.heading != ""
  {
    if s.heading != "" then Some(Header(s.heading, if Text.Truthy(s.description) then s.description else None)) else None
  }

  function CardOf(item: MenuItems.MenuItem): (c: Card)
    ensures c.item == item
    ensures c.popularBadge <==> Text.Truthy(item.image) && item.isPopular
  {
    Card(item, if Text.Truthy(item.image) then item.image else None, Text.Truthy(item.image) && item.isPopular)
  }

  /** `MenuPreviewBlock`: while loading, three placeholder cards whatever
      the count; then an error hides the block; then an empty selection
      hides it; otherwise one card per selected item, in catalog order. */
  function Render(data: BlockData, isLoading: bool, error: bool, items: seq<MenuItems.MenuItem>): (v: PreviewView)
    ensures isLoading <==> v.Skeleton?
    ensures v.Skeleton? ==> v.placeholders == SkeletonCards
    ensures !isLoading && error ==> v.Hidden?
    ensures v.Preview? ==> !error && |v.cards| == |Selection(items, SettingsOf(data).showCount, SettingsOf(data).filterPopular)| > 0
    ensures v.Preview? ==> forall i :: 0 <= i < |v.cards| ==>
              v.cards[i] == CardOf(Selection(items, SettingsOf(data).showCount, SettingsOf(data).filterPopular)[i])
    ensures !isLoading && !error && Selection(items, SettingsOf(data).showCount, SettingsOf(data).filterPopular) == [] ==> v.Hidden?
    ensures !isLoading && !error && Selection(items, SettingsOf(data).showCount, SettingsOf(data).filterPopular) != [] ==>
              v.Preview? && v.header == HeaderOf(SettingsOf(data))
    ensures v.Skeleton? ==> v.header == HeaderOf(SettingsOf(data))
  {
    var s := SettingsOf(data);
    if isLoading then Skeleton(HeaderOf(s), SkeletonCards)
    else if error then Hidden
    else
      var shown := Selection(items, s.showCount, s.filterPopular);
      if shown == [] then Hidden else Preview(HeaderOf(s), Seqs.Map(CardOf, shown))
  }

  /** With the default settings the preview shows the first six popular
      dishes (all of them when there are fewer), under the default heading,
      and is hidden only when no dish is popular. */
  lemma DefaultPreview(items: seq<MenuItems.MenuItem>)
    ensures var v := Render(BlockData(None, None, None, None, None, None, None, None, None, None, None, None, None), false, false, items);
            var popular := MenuItems.GetPopularItems(items);
            && (v.Preview? <==> popular != [])
            && (v.Preview? ==> |v.cards| == (if |popular| < 6 then |popular| else 6))
            && (v.Preview? ==> forall i :: 0 <= i < |v.cards| ==> v.cards[i].item == popular[i] && v.cards[i].item.isPopular)
            && (v.Preview? ==> v.header == Some(Header(DefaultHeading, None)))
  {
    SelectionLength(items, 6, true);
  }
}
