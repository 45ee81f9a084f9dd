/** The café landing page: a chain of checks (loading, café error, website
    error, nothing configured) and otherwise the configured blocks in the
    chosen layout. */
module TenantLanding {
  import opened Wrappers
  import opened CafeWebsite
  import Text

  datatype LayoutKind = Aroma | Luxury

  /** What the landing page shows. `Crash` stands for a truthy `blocks`
      value that is not an array, which the layouts cannot iterate. */
  datatype Screen =
    | LoadingSkeleton
    | CafeErrorCard(message: string)
    | WebsiteErrorCard
    | NotConfigured(name: Option<string>, description: Option<string>)
    | Page(layout: LayoutKind, blocks: seq<Block>, warning: Option<string>)
    | Crash

  /** `website.layout || 'aroma'`. */
  function LayoutName(layout: Option<string>): (r: string)
    ensures r != ""
    ensures Text.Truthy(layout) ==> r == layout.value
  {
    if Text.Truthy(layout) then layout.value else "aroma"
  }

  function ChooseLayout(name: string): (k: LayoutKind)
    ensures k == Luxury <==> name == "luxury"
  {
    if name == "luxury" then Luxury else Aroma
  }

  /** The console warning for a layout name that is neither known one. */
  function LayoutWarning(name: string): (w: Option<string>)
    ensures w.Some? <==> name != "aroma" && name != "luxury"
    ensures w.Some? ==> w.value == "Unknown layout: " + name + ", defaulting to aroma"
  {
    if name != "aroma" && name != "luxury" then Some("Unknown layout: " + name + ", defaulting to aroma")
    else None
  }

  /** True when the page has nothing configured to show. */
  predicate Unconfigured(website: Option<Website>)
  {
    website.None? || website.value.blocks.Missing? || website.value.blocks == Arr([])
  }

  /** Nothing is loading, no café error is set and the website query did
      not fail: the page shows either the fallback or the website. */
  predicate Settled(cafeLoading: bool, cafeError: Option<string>, website: QueryState)
  {
    !cafeLoading && !website.isLoading && !Text.Truthy(cafeError) && !website.failed
  }

  /** The render decision, in the order of the checks. */
  function Decide(cafeLoading: bool, cafeError: Option<string>, cafe: Option<Cafe>,
                  website: QueryState): (s: Screen)
    ensures cafeLoading || website.isLoading <==> s == LoadingSkeleton
    ensures s.CafeErrorCard? <==> !cafeLoading && !website.isLoading && Text.Truthy(cafeError)
    ensures s.CafeErrorCard? ==> s.message == cafeError.value
    ensures s.WebsiteErrorCard? <==>
              !cafeLoading && !website.isLoading && !Text.Truthy(cafeError) && website.failed
    ensures Settled(cafeLoading, cafeError, website) ==> (s.NotConfigured? <==> Unconfigured(website.data))
    ensures s == Crash <==>
              Settled(cafeLoading, cafeError, website) && !Unconfigured(website.data) &&
              website.data.value.blocks.NotArray?
    ensures s.Page? <==>
              Settled(cafeLoading, cafeError, website) && !Unconfigured(website.data) &&
              website.data.value.blocks.Arr?
    ensures s.Page? ==> website.data.value.blocks == Arr(s.blocks) && s.blocks != []
    ensures s.Page? ==> s.layout == ChooseLayout(LayoutName(website.data.value.layout))
    ensures s.Page? ==> s.warning == LayoutWarning(LayoutName(website.data.value.layout))
  {
    if cafeLoading || website.isLoading then LoadingSkeleton
    else if Text.Truthy(cafeError) then CafeErrorCard(cafeError.value)
    else if website.failed then WebsiteErrorCard
    else if Unconfigured(website.data) then
      NotConfigured(if cafe.Some? then Some(cafe.value.name) else None,
                    if cafe.Some? && Text.Truthy(cafe.value.description) then cafe.value.description else None)
    else
      var w := website.data.value;
      if w.blocks.NotArray? then Crash
      else
        var name := LayoutName(w.layout);
        Page(ChooseLayout(name), w.blocks.elems, LayoutWarning(name))
  }

  /** Once nothing is loading and no error is set, a configured website is
      rendered with its blocks unchanged; "luxury" selects the luxury layout
      and every other name (including an absent one) the aroma layout, with a
      warning only for a name that is neither. */
  lemma ConfiguredPage(cafe: Option<Cafe>, w: Website)
    requires w.blocks.Arr? && w.blocks.elems != []
    ensures var s := Decide(false, None, cafe, QueryState(false, false, Some(w)));
            && s.Page?
            && s.blocks == w.blocks.elems
            && (s.layout == Luxury <==> w.layout == Some("luxury"))
            && (s.warning.Some? <==> Text.Truthy(w.layout) && w.layout.value != "aroma" && w.layout.value != "luxury")
  {
  }

  /** A café error is shown even when the website query failed too. */
  lemma CafeErrorFirst(message: string, cafe: Option<Cafe>, website: QueryState)
    requires message != "" && !website.isLoading
    ensures Decide(false, Some(message), cafe, website) == CafeErrorCard(message)
  {
  }

  /** A café without a website row (or without an id) gets the fallback. */
  lemma NoWebsiteFallback(cafe: Cafe)
    ensures Decide(false, None, Some(cafe), WebsiteQuery(cafe.id, Failure(NoRows))).NotConfigured?
  {
  }

  /** A website whose blocks are missing or an empty array gets the
      fallback, exactly like a café without a website row. */
  lemma EmptyBlocksFallback(cafe: Option<Cafe>, w: Website)
    requires w.blocks.Missing? || w.blocks == Arr([])
    ensures Decide(false, None, cafe, QueryState(false, false, Some(w))).NotConfigured?
    ensures Decide(false, None, cafe, QueryState(false, false, Some(w))) ==
            Decide(false, None, cafe, QueryState(false, false, None))
  {
  }
}
