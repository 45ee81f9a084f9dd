/** The "aroma" layout: one full-width section per block, alternating
    between two backgrounds, each rendering its single block through the
    engine. */
module AromaLayout {
  import opened CafeWebsite
  import LayoutEngine

  datatype Section = Section(className: string, containerClass: string, content: LayoutEngine.Output)

  function BackgroundClass(index: nat): string
  {
    if index % 2 == 0 then "bg-background" else "bg-muted/30"
  }

  const Container: string := "container max-w-7xl mx-auto px-4"

  /** `AromaLayout`: section i has padding `py-20` and the background of i's
      parity, and shows the engine's output for `[blocks[i]]` with layout
      "aroma". */
  function Sections(blocks: seq<Block>): (r: seq<Section>)
    ensures |r| == |blocks|
    ensures forall i :: 0 <= i < |r| ==> r[i].className == "py-20 " + BackgroundClass(i)
    ensures forall i :: 0 <= i < |r| ==> r[i].containerClass == Container
    ensures forall i :: 0 <= i < |r| ==> r[i].content == LayoutEngine.Engine(Arr([blocks[i]]), "aroma")
  {
    seq(|blocks|, i requires 0 <= i < |blocks| =>
      Section("py-20 " + BackgroundClass(i), Container, LayoutEngine.Engine(Arr([blocks[i]]), "aroma")))
  }

  /** Neighbouring indices never get the same section class, and index 0
      uses the page background. */
  lemma ClassesAlternate(i: nat)
    ensures "py-20 " + BackgroundClass(i) != "py-20 " + BackgroundClass(i + 1)
    ensures "py-20 " + BackgroundClass(0) == "py-20 bg-background"
  {
    var a, b := BackgroundClass(i), BackgroundClass(i + 1);
    assert a != b by {
      if i % 2 == 0 {
        assert (i + 1) % 2 == 1;
      } else {
        assert (i + 1) % 2 == 0;
      }
    }
    assert ("py-20 " + a)[6..] == a;
    assert ("py-20 " + b)[6..] == b;
  }

  /** Neighbouring sections never share a background, and the first one
      uses the page background. */
  lemma Alternates(blocks: seq<Block>, i: nat)
    requires i + 1 < |blocks|
    ensures Sections(blocks)[i].className != Sections(blocks)[i + 1].className
    ensures Sections(blocks)[0].className == "py-20 bg-background"
  {
    ClassesAlternate(i);
  }

  /** A known block's section holds exactly its component with its data; an
      unknown block still gets a (padded, empty) section, so it counts for
      the parity of every later section. */
  lemma SectionContent(blocks: seq<Block>, i: nat)
    requires i < |blocks|
    ensures LayoutEngine.Known(blocks[i]) ==>
              Sections(blocks)[i].content.elements ==
              [LayoutEngine.Rendered(LayoutEngine.GetBlockComponent(blocks[i].tag).value, blocks[i].data)]
    ensures LayoutEngine.Unknown(blocks[i]) ==> Sections(blocks)[i].content.elements == []
  {
    LayoutEngine.SingleBlock(blocks[i], "aroma");
  }
}
