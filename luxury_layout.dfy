/** The "luxury" layout: one section per block with a bottom border between
    sections, each rendering its single block through the engine. */
module LuxuryLayout {
  import opened CafeWebsite
  import LayoutEngine

  datatype Section = Section(className: string, containerClass: string, content: LayoutEngine.Output)

  /** The border class of section `index` out of `count`. */
  function BorderClass(index: nat, count: nat): string
  {
    if index < count - 1 then "border-b border-border" else ""
  }

  const Container: string := "container max-w-6xl mx-auto px-4"

  /** `LuxuryLayout`: section i has padding `py-12`, a bottom border unless
      it is the last, and shows the engine's output for `[blocks[i]]` with
      layout "luxury". */
  function Sections(blocks: seq<Block>): (r: seq<Section>)
    ensures |r| == |blocks|
    ensures forall i :: 0 <= i < |r| ==> r[i].className == "py-12 " + BorderClass(i, |blocks|)
    ensures forall i :: 0 <= i < |r| ==> r[i].containerClass == Container
    ensures forall i :: 0 <= i < |r| ==> r[i].content == LayoutEngine.Engine(Arr([blocks[i]]), "luxury")
  {
    seq(|blocks|, i requires 0 <= i < |blocks| =>
      Section("py-12 " + BorderClass(i, |blocks|), Container, LayoutEngine.Engine(Arr([blocks[i]]), "luxury")))
  }

  /** Exactly the last section has no border: a one-block page has none, and
      an empty list gives no sections. */
  lemma BorderOnAllButLast(blocks: seq<Block>, i: nat)
    requires i < |blocks|
    ensures Sections(blocks)[i].className == "py-12 border-b border-border" <==> i != |blocks| - 1
    ensures Sections(blocks)[i].className == "py-12 " <==> i == |blocks| - 1
  {
  }

  lemma EmptyHasNoSections()
    ensures Sections([]) == []
  {
  }

  /** The luxury and aroma layouts show the same engine output in every
      section, apart from the layout name they pass, which the engine
      ignores. */
  lemma SameContentAsEngine(blocks: seq<Block>, i: nat)
    requires i < |blocks|
    ensures Sections(blocks)[i].content == LayoutEngine.Engine(Arr([blocks[i]]), "aroma")
  {
    LayoutEngine.LayoutIrrelevant(Arr([blocks[i]]), "luxury", "aroma");
  }
}
