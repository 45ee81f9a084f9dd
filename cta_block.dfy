/** The call-to-action block: a heading, an optional description and one
    button linking inside or outside the site. */
module CTABlock {
  import opened Wrappers
  import opened CafeWebsite
  import Links
  import Text

  const DefaultStyle: string := "solid"
  const GradientClass: string := "bg-gradient-to-br from-primary/20 via-background to-accent/20"
  const MutedClass: string := "bg-muted/30"

  /** The background class: the gradient for "gradient", the muted
      background for every other style (the default is "solid"). */
  function BackgroundClass(style: Option<string>): (r: string)
    ensures r == GradientClass <==> style == Some("gradient")
    ensures r == MutedClass <==> style != Some("gradient")
  {
    var s := if style.Some? then style.value else DefaultStyle;
    if s == "gradient" then GradientClass else MutedClass
  }

  datatype CTAView = CTAView(heading: string, description: Option<string>, backgroundClass: string, button: Links.Link)

  /** `CTABlock`. A missing `buttonLink` makes `startsWith` throw, so the
      block fails to render (`Err`); otherwise heading and button text are
      always shown (absent ones render as nothing), the description only
      when non-empty, and the button links outside exactly for targets
      starting with "http". */
  function Render(data: BlockData): (r: Result<CTAView, string>)
    ensures r.Err? <==> data.buttonLink.None?
    ensures r.Ok? ==> r.value.button == Links.LinkTo(data.buttonLink.value, if data.buttonText.Some? then data.buttonText.value else "")
    ensures r.Ok? ==> (r.value.button.External? <==> Text.StartsWith(data.buttonLink.value, "http"))
    ensures r.Ok? ==> r.value.heading == if data.heading.Some? then data.heading.value else ""
    ensures r.Ok? ==> (r.value.description.Some? <==> Text.Truthy(data.description))
    ensures r.Ok? ==> r.value.backgroundClass == BackgroundClass(data.backgroundStyle)
  {
    if data.buttonLink.None? then Err("TypeError: buttonLink is undefined")
    else
      Ok(CTAView(
        if data.heading.Some? then data.heading.value else "",
        if Text.Truthy(data.description) then data.description else None,
        BackgroundClass(data.backgroundStyle),
        Links.LinkTo(data.buttonLink.value, if data.buttonText.Some? then data.buttonText.value else "")))
  }
}
