/** The hero block: a heading and subheading with fallbacks from the café
    record, an optional background image, and an optional call to action. */
module HeroBlock {
  import opened Wrappers
  import opened CafeWebsite
  import Links
  import Text

  const DefaultHeading: string := "Welcome to Our Cafe"
  const DefaultSubheading: string := "Experience the best coffee in town"

  /** `a || b || fallback` over optional strings: the first truthy one. */
  function FirstTruthy(a: Option<string>, b: Option<string>, fallback: string): (r: string)
    ensures Text.Truthy(a) ==> r == a.value
    ensures !Text.Truthy(a) && Text.Truthy(b) ==> r == b.value
    ensures !Text.Truthy(a) && !Text.Truthy(b) ==> r == fallback
    ensures fallback != "" ==> r != ""
  {
    if Text.Truthy(a) then a.value else if Text.Truthy(b) then b.value else fallback
  }

  function CafeTagline(cafe: Option<Cafe>): Option<string>
  {
    if cafe.Some? then cafe.value.tagline else None
  }

  function CafeDescription(cafe: Option<Cafe>): Option<string>
  {
    if cafe.Some? then cafe.value.description else None
  }

  datatype Background = Photo(src: string, alt: string) | Gradient

  datatype HeroView = HeroView(heading: string, subheading: string, background: Background, cta: Option<Links.Link>)

  /** `HeroBlock`: the heading is the block's heading, else the café
      tagline, else the default (empty strings fall through); likewise the
      subheading with the café description. The image, when present, is
      labelled with the heading. The call to action appears only when both
      its text and its link are non-empty. */
  function Render(data: BlockData, cafe: Option<Cafe>): (v: HeroView)
    ensures v.heading == FirstTruthy(data.heading, CafeTagline(cafe), DefaultHeading)
    ensures v.subheading == FirstTruthy(data.subheading, CafeDescription(cafe), DefaultSubheading)
    ensures v.heading != "" && v.subheading != ""
    ensures v.background.Photo? <==> Text.Truthy(data.backgroundImage)
    ensures v.background.Photo? ==> v.background.src == data.backgroundImage.value && v.background.alt == v.heading
    ensures v.cta.Some? <==> Text.Truthy(data.ctaText) && Text.Truthy(data.ctaLink)
    ensures v.cta.Some? ==> v.cta.value == Links.LinkTo(data.ctaLink.value, data.ctaText.value)
  {
    var heading := FirstTruthy(data.heading, CafeTagline(cafe), DefaultHeading);
    var subheading := FirstTruthy(data.subheading, CafeDescription(cafe), DefaultSubheading);
    HeroView(
      heading,
      subheading,
      if Text.Truthy(data.backgroundImage) then Photo(data.backgroundImage.value, heading) else Gradient,
      if Text.Truthy(data.ctaText) && Text.Truthy(data.ctaLink)
      then Some(Links.LinkTo(data.ctaLink.value, data.ctaText.value))
      else None)
  }

  /** An empty heading in the block data is treated like an absent one. */
  lemma EmptyHeadingFallsThrough(data: BlockData, cafe: Option<Cafe>)
    ensures Render(data.(heading := Some("")), cafe).heading == Render(data.(heading := None), cafe).heading
  {
  }
}
