/** The block renderer: each block's tag is looked up in a fixed registry of
    components, unknown tags are skipped with a warning, and every rendered
    component receives its own block's data. */
module LayoutEngine {
  import opened Wrappers
  import opened CafeWebsite
  import Seqs

  datatype Component = HeroBlock | GalleryBlock | MenuPreviewBlock | CtaBlock | FooterBlock

  /** The tag a component is registered under. */
  function ComponentTag(c: Component): string
  {
    match c
    case HeroBlock => "hero"
    case GalleryBlock => "gallery"
    case MenuPreviewBlock => "menu_preview"
    case CtaBlock => "cta"
    case FooterBlock => "footer"
  }

  /** `getBlockComponent`: the registry resolves exactly the five block
      tags, each to the component registered under it. */
  function GetBlockComponent(tag: string): (c: Option<Component>)
    ensures c.Some? <==> tag in BlockTags
    ensures c.Some? ==> ComponentTag(c.value) == tag
  {
    if tag == "hero" then Some(HeroBlock)
    else if tag == "gallery" then Some(GalleryBlock)
    else if tag == "menu_preview" then Some(MenuPreviewBlock)
    else if tag == "cta" then Some(CtaBlock)
    else if tag == "footer" then Some(FooterBlock)
    else None
  }

  predicate Known(b: Block)
  {
    GetBlockComponent(b.tag).Some?
  }

  predicate Unknown(b: Block)
  {
    GetBlockComponent(b.tag).None?
  }

  /** One rendered component with the data it receives. */
  datatype Rendered = Rendered(component: Component, data: BlockData)

  /** What the engine logs. */
  datatype Log = NotAnArrayError | UnknownTypeWarning(tag: string)

  datatype Output = Output(elements: seq<Rendered>, log: seq<Log>)

  /** The components of the known blocks, in order. */
  function RenderAll(blocks: seq<Block>): (r: seq<Rendered>)
    ensures |r| <= |blocks|
  {
    if blocks == [] then []
    else
      var c := GetBlockComponent(blocks[0].tag);
      (if c.Some? then [Rendered(c.value, blocks[0].data)] else []) + RenderAll(blocks[1..])
  }

  /** One warning per unknown block, in order. */
  function Warnings(blocks: seq<Block>): seq<Log>
  {
    if blocks == [] then []
    else (if Unknown(blocks[0]) then [UnknownTypeWarning(blocks[0].tag)] else []) + Warnings(blocks[1..])
  }

  /** `LayoutEngine`: a non-array logs an error and renders nothing; an empty
      array renders nothing; otherwise the known blocks render in order. The
      layout argument is not used. */
  function Engine(blocks: Blocks, layout: string): (out: Output)
    ensures !blocks.Arr? ==> out == Output([], [NotAnArrayError])
    ensures blocks == Arr([]) ==> out == Output([], [])
    ensures blocks.Arr? ==> out == Output(RenderAll(blocks.elems), Warnings(blocks.elems))
    ensures blocks.Arr? ==> |out.elements| + |out.log| == |blocks.elems|
  {
    if !blocks.Arr? then Output([], [NotAnArrayError])
    else if blocks.elems == [] then Output([], [])
    else
      SkippedAndRendered(blocks.elems);
      Output(RenderAll(blocks.elems), Warnings(blocks.elems))
  }

  /** Every block is either rendered or warned about, never both. */
  lemma {:induction false} SkippedAndRendered(blocks: seq<Block>)
    ensures |RenderAll(blocks)| == Seqs.Count(Known, blocks)
    ensures |Warnings(blocks)| == Seqs.Count(Unknown, blocks)
    ensures |RenderAll(blocks)| + |Warnings(blocks)| == |blocks|
  {
    if blocks != [] {
      SkippedAndRendered(blocks[1..]);
    }
  }

  /** N blocks of which k are unknown render N - k components. */
  lemma RenderCount(blocks: seq<Block>)
    ensures |Engine(Arr(blocks), "aroma").elements| == |blocks| - Seqs.Count(Unknown, blocks)
  {
    SkippedAndRendered(blocks);
  }

  /** The tag and data a rendered component stands for. */
  function RenderedKey(r: Rendered): (string, BlockData)
  {
    (ComponentTag(r.component), r.data)
  }

  function BlockKey(b: Block): (string, BlockData)
  {
    (b.tag, b.data)
  }

  /** The rendered components are the known blocks, in their order: the
      i-th component is registered under the i-th known block's tag and
      receives that block's data unchanged. */
  lemma {:induction false} RenderAllIsKnownBlocks(blocks: seq<Block>)
    ensures Seqs.Map(RenderedKey, RenderAll(blocks)) == Seqs.Map(BlockKey, Seqs.Filter(Known, blocks))
  {
    if blocks != [] {
      RenderAllIsKnownBlocks(blocks[1..]);
      var c := GetBlockComponent(blocks[0].tag);
      if c.Some? {
        assert RenderAll(blocks) == [Rendered(c.value, blocks[0].data)] + RenderAll(blocks[1..]);
        assert Seqs.Filter(Known, blocks) == [blocks[0]] + Seqs.Filter(Known, blocks[1..]);
      } else {
        assert RenderAll(blocks) == RenderAll(blocks[1..]);
        assert Seqs.Filter(Known, blocks) == Seqs.Filter(Known, blocks[1..]);
      }
    }
  }

  /** The warnings name exactly the unknown tags, in order. */
  lemma {:induction false} WarningsAreUnknownTags(blocks: seq<Block>)
    ensures Warnings(blocks) == Seqs.Map((b: Block) => UnknownTypeWarning(b.tag), Seqs.Filter(Unknown, blocks))
  {
    if blocks != [] {
      WarningsAreUnknownTags(blocks[1..]);
      if Unknown(blocks[0]) {
        assert Seqs.Filter(Unknown, blocks) == [blocks[0]] + Seqs.Filter(Unknown, blocks[1..]);
      } else {
        assert Seqs.Filter(Unknown, blocks) == Seqs.Filter(Unknown, blocks[1..]);
      }
    }
  }

  /** Removing an unknown block changes the rendered components not at all. */
  lemma {:induction false} UnknownSkippedOnly(a: seq<Block>, b: Block, c: seq<Block>)
    requires Unknown(b)
    ensures RenderAll(a + [b] + c) == RenderAll(a + c)
  {
    if a == [] {
      assert a + [b] + c == [b] + c;
      assert ([b] + c)[1..] == c;
      assert a + c == c;
    } else {
      assert (a + [b] + c)[1..] == a[1..] + [b] + c;
      assert (a + c)[1..] == a[1..] + c;
      UnknownSkippedOnly(a[1..], b, c);
    }
  }

  /** The layout argument has no effect on the output. */
  lemma LayoutIrrelevant(blocks: Blocks, l1: string, l2: string)
    ensures Engine(blocks, l1) == Engine(blocks, l2)
  {
  }

  /** A single block renders as its component, or as nothing with one
      warning when its tag is unknown. */
  lemma {:induction false} SingleBlock(b: Block, layout: string)
    ensures Known(b) ==> Engine(Arr([b]), layout) == Output([Rendered(GetBlockComponent(b.tag).value, b.data)], [])
    ensures Unknown(b) ==> Engine(Arr([b]), layout) == Output([], [UnknownTypeWarning(b.tag)])
  {
    assert [b][1..] == [];
  }
}
