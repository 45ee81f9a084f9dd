/** The link choice shared by the hero and call-to-action blocks: a target
    that starts with "http" opens as an external anchor in a new tab, any
    other target is a client-side route. */
module Links {
  import Text

  datatype Link = External(href: string, text: string) | Internal(to: string, text: string)

  function LinkTo(target: string, text: string): (l: Link)
    ensures l.External? <==> Text.StartsWith(target, "http")
    ensures l.text == text
    ensures l.External? ==> l.href == target
    ensures l.Internal? ==> l.to == target
  {
    if Text.StartsWith(target, "http") then External(target, text) else Internal(target, text)
  }

  /** The target a link leads to, whichever kind it is. */
  function Target(l: Link): string
  {
    if l.External? then l.href else l.to
  }

  /** The link always leads to the given target with the given caption. */
  lemma LinkToKeepsTarget(target: string, text: string)
    ensures Target(LinkTo(target, text)) == target
    ensures LinkTo(target, text).text == text
  {
  }
}
