/** The per-café landing page configuration: a layout name and an ordered
    list of typed content blocks, fetched for the current café. */
module CafeWebsite {
  import opened Wrappers

  /** The block tags the renderer knows. */
  datatype BlockType = Hero | Gallery | MenuPreview | Cta | Footer

  function TagOf(t: BlockType): string
  {
    match t
    case Hero => "hero"
    case Gallery => "gallery"
    case MenuPreview => "menu_preview"
    case Cta => "cta"
    case Footer => "footer"
  }

  /** `BlockType` as stored strings. */
  const BlockTags: seq<string> := ["hero", "gallery", "menu_preview", "cta", "footer"]

  /** The five tags are exactly the stored names of the five block types,
      and different types have different tags. */
  lemma BlockTagsClosed(t: BlockType, u: BlockType)
    ensures TagOf(t) in BlockTags
    ensures TagOf(t) == TagOf(u) ==> t == u
    ensures forall s :: s in BlockTags ==> exists b :: TagOf(b) == s
  {
    assert TagOf(Hero) == BlockTags[0];
    assert TagOf(Gallery) == BlockTags[1];
    assert TagOf(MenuPreview) == BlockTags[2];
    assert TagOf(Cta) == BlockTags[3];
    assert TagOf(Footer) == BlockTags[4];
  }

  datatype Image = Image(url: string, alt: string)

  /** A block's free-form `data` object, as the keys the block components
      read; an absent key is `None`. */
  datatype BlockData = BlockData(
    heading: Option<string>,
    subheading: Option<string>,
    backgroundImage: Option<string>,
    ctaText: Option<string>,
    ctaLink: Option<string>,
    images: Option<seq<Image>>,
    columns: Option<int>,
    description: Option<string>,
    showCount: Option<int>,
    filterPopular: Option<bool>,
    buttonText: Option<string>,
    buttonLink: Option<string>,
    backgroundStyle: Option<string>)

  /** A block as stored: the tag is free text, so unknown tags can occur. */
  datatype Block = Block(tag: string, data: BlockData)

  /** The stored `blocks` value: absent (or another falsy value), some other
      non-array value, or an array. */
  datatype Blocks = Missing | NotArray | Arr(elems: seq<Block>)

  datatype Website = Website(
    id: string,
    cafeId: string,
    layout: Option<string>,
    blocks: Blocks,
    createdAt: string,
    updatedAt: string)

  /** The café record the pages read (provided by the café context). */
  datatype Cafe = Cafe(id: Option<string>, name: string, description: Option<string>, tagline: Option<string>)

  /** What the `.single()` query answers: the row, or an error code. */
  datatype Response = Row(website: Website) | Failure(code: string)

  /** The error code for "no row". */
  const NoRows: string := "PGRST116"

  /** `fetchCafeWebsite`: no row means "not configured" (`null`); any other
      error is raised; a row is returned as stored. */
  function FetchCafeWebsite(resp: Response): (r: Result<Option<Website>, string>)
    ensures r == Ok(None) <==> resp.Failure? && resp.code == NoRows
    ensures r.Err? <==> resp.Failure? && resp.code != NoRows
    ensures r.Err? ==> r.error == resp.code
    ensures resp.Row? ==> r == Ok(Some(resp.website))
  {
    match resp
    case Row(w) => Ok(Some(w))
    case Failure(code) => if code == NoRows then Ok(None) else Err(code)
  }

  /** The query is enabled only for a truthy café id. */
  predicate Enabled(cafeId: Option<string>)
  {
    cafeId.Some? && cafeId.value != ""
  }

  /** The settled state of the website query as the landing page reads it. */
  datatype QueryState = QueryState(isLoading: bool, failed: bool, data: Option<Website>)

  function WebsiteQuery(cafeId: Option<string>, resp: Response): (q: QueryState)
    ensures !q.isLoading
    ensures !Enabled(cafeId) ==> !q.failed && q.data.None?
    ensures Enabled(cafeId) ==> (q.failed <==> FetchCafeWebsite(resp).Err?)
    ensures Enabled(cafeId) && !q.failed ==> q.data == FetchCafeWebsite(resp).value
  {
    if !Enabled(cafeId) then QueryState(false, false, None)
    else
      match FetchCafeWebsite(resp)
      case Ok(w) => QueryState(false, false, w)
      case Err(_) => QueryState(false, true, None)
  }

  /** A café whose website row is missing reads as "not configured", never
      as a failure. */
  lemma MissingRowIsNotConfigured(cafeId: Option<string>)
    requires Enabled(cafeId)
    ensures WebsiteQuery(cafeId, Failure(NoRows)) == QueryState(false, false, None)
  {
  }
}
