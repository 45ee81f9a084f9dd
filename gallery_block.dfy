/** The gallery block: a grid of image tiles with a configurable number of
    columns. */
module GalleryBlock {
  import opened Wrappers
  import opened CafeWebsite
  import Text

  const DefaultColumns: int := 3
  const ThreeColumns: string := "grid-cols-1 md:grid-cols-2 lg:grid-cols-3"

  /** The grid class of a column count: 1 to 4 have their own classes, any
      other value falls back to the three-column class. */
  function GridClass(columns: int): (r: string)
    ensures columns == 3 || !(1 <= columns <= 4) ==> r == ThreeColumns
    ensures 1 <= columns <= 4 && columns != 3 ==> r != ThreeColumns
  {
    if columns == 1 then "grid-cols-1"
    else if columns == 2 then "grid-cols-1 md:grid-cols-2"
    else if columns == 4 then "grid-cols-1 md:grid-cols-2 lg:grid-cols-4"
    else ThreeColumns
  }

  /** Different supported column counts give different grids. */
  lemma GridClassInjective(a: int, b: int)
    requires 1 <= a <= 4 && 1 <= b <= 4
    requires GridClass(a) == GridClass(b)
    ensures a == b
  {
  }

  datatype GalleryView = Nothing | Grid(heading: Option<string>, gridClass: string, tiles: seq<Image>)

  /** `GalleryBlock`: no images (absent or empty) renders nothing; otherwise
      one tile per image in order, the heading only when non-empty, and the
      grid of the column count (3 when absent). */
  function Render(data: BlockData): (v: GalleryView)
    ensures v.Nothing? <==> data.images.None? || data.images.value == []
    ensures v.Grid? ==> v.tiles == data.images.value
    ensures v.Grid? ==> (v.heading.Some? <==> Text.Truthy(data.heading))
    ensures v.Grid? && v.heading.Some? ==> v.heading == data.heading
    ensures v.Grid? && data.columns.None? ==> v.gridClass == ThreeColumns
    ensures v.Grid? && data.columns.Some? ==> v.gridClass == GridClass(data.columns.value)
  {
    if data.images.None? || data.images.value == [] then Nothing
    else
      var columns := if data.columns.Some? then data.columns.value else DefaultColumns;
      Grid(if Text.Truthy(data.heading) then data.heading else None, GridClass(columns), data.images.value)
  }
}
