/**
 * `DataBlockExtractStrategy`: the per-page listener of the PDF parser. Text
 * scopes open and close as `BEGIN_TEXT` / `END_TEXT` events arrive, each
 * rendered glyph run or image becomes a block in the innermost open scope,
 * and at the end every top-level scope is consolidated through the merge
 * pipeline.
 *
 * What the parser computes (glyph ascent and descent lines, the image matrix,
 * the font program and the image bytes) arrives here as plain values in the
 * event data. The font and image managers are the shared caches of the
 * extractor, asked once per glyph run and once per image.
 */
module Extract {
  import opened Wrappers
  import opened Geometry
  import opened Tags
  import opened Blocks
  import opened Seqs
  import opened Tree
  import opened Pipeline
  import opened Builder
  import opened Sibling
  import opened Fonts
  import opened Images

  /** The parser events the listener can receive. */
  datatype EventType = BeginText | EndText | RenderText | RenderImage | OtherEvent

  /**
   * A `TextRenderInfo`, reduced to what the listener reads from it. The four
   * points are in PDF space (y grows upwards); `font` is the glyph run's
   * font, which the font manager measures.
   */
  datatype TextRender = TextRender(
    fontSize: real,
    sizeAdjusted: real,           // the font size through the text matrix
    font: FontProgram,
    singleSpaceWidth: real,
    xScale: real,                 // horizontal scaling, in percent
    magnitude: real,              // orientation magnitude of the glyph run
    ascentStart: BlockPoint,
    ascentEnd: BlockPoint,
    descentEnd: BlockPoint,
    descentStart: BlockPoint,
    text: string,
    mcid: int,
    tags: seq<DataTag>)

  /**
   * An `ImageRenderInfo`, reduced to what the listener reads from it;
   * `image` is the `PdfImageXObject` handed to the image manager.
   */
  datatype ImageRender = ImageRender(
    name: Option<string>,
    matrixWidth: real,
    matrixHeight: real,
    start: BlockPoint,
    image: ImageSource,
    tags: seq<DataTag>)

  /** The event payload; its run-time type picks the processor. */
  datatype EventData = NoData | TextData(text: TextRender) | ImageData(image: ImageRender) | OtherData

  /** `GetSupportedEvents`. */
  function SupportedEvents(): (r: seq<EventType>)
    ensures forall t :: t in r <==> !t.OtherEvent?
    ensures |r| == 4
  {
    [BeginText, EndText, RenderText, RenderImage]
  }

  /** A point of PDF space (origin bottom-left) in page space (origin top-left). */
  function FlipY(pageHeight: real, p: BlockPoint): (q: BlockPoint)
    ensures q.x == p.x && q.y + p.y == pageHeight
  {
    BlockPoint(p.x, pageHeight - p.y)
  }

  /** Flipping is its own inverse. */
  lemma FlipInvolution(pageHeight: real, p: BlockPoint)
    ensures FlipY(pageHeight, FlipY(pageHeight, p)) == p
  {
  }

  /**
   * The area of a glyph run: the ascent line gives the top corners, the
   * descent line the bottom ones, each flipped into page space.
   */
  function TextArea(pageHeight: real, t: TextRender, length: Vector2 -> real): (a: BlockArea)
    ensures a.GetPoints() == [FlipY(pageHeight, t.ascentStart), FlipY(pageHeight, t.ascentEnd),
                              FlipY(pageHeight, t.descentEnd), FlipY(pageHeight, t.descentStart)]
    ensures a.width == length(a.TopLine()) && a.height == length(a.LeftLine())
  {
    FromCorners(FlipY(pageHeight, t.ascentStart), FlipY(pageHeight, t.ascentEnd),
                FlipY(pageHeight, t.descentEnd), FlipY(pageHeight, t.descentStart), length)
  }

  /** A glyph run whose ascent line is above its descent line in PDF space has its top above its bottom on the page. */
  lemma TextAreaUpright(pageHeight: real, t: TextRender, length: Vector2 -> real)
    requires t.ascentStart.y >= t.descentStart.y && t.ascentEnd.y >= t.descentEnd.y
    ensures var a := TextArea(pageHeight, t, length);
      a.topLeft.y <= a.bottomLeft.y && a.topRight.y <= a.bottomRight.y
  {
    var a := TextArea(pageHeight, t, length);
    assert a.GetPoints()[0] == a.topLeft && a.GetPoints()[3] == a.bottomLeft;
    assert a.GetPoints()[1] == a.topRight && a.GetPoints()[2] == a.bottomRight;
  }

  /**
   * The area of an image: the start point, flipped, is the bottom-left corner;
   * the matrix's scale entries give the width and the height.
   */
  function ImageArea(pageHeight: real, i: ImageRender, length: Vector2 -> real): (a: BlockArea)
    ensures a.bottomLeft == FlipY(pageHeight, i.start)
    ensures a.topRight.x - a.topLeft.x == i.matrixWidth && a.bottomLeft.y - a.topLeft.y == i.matrixHeight
  {
    var x := i.start.x;
    var y := pageHeight - i.start.y;
    FromCorners(BlockPoint(x, y - i.matrixHeight), BlockPoint(x + i.matrixWidth, y - i.matrixHeight),
                BlockPoint(x + i.matrixWidth, y), BlockPoint(x, y), length)
  }

  /**
   * An image area is the first-generation box whose top-left corner lies the
   * image height above the flipped start point, as long as the length of an
   * axis-aligned vector is its extent.
   */
  lemma {:induction false} ImageAreaIsBox(pageHeight: real, i: ImageRender, length: Vector2 -> real)
    requires i.matrixWidth >= 0.0 && i.matrixHeight >= 0.0
    requires length(Vector2(i.matrixWidth, 0.0)) == i.matrixWidth
    requires length(Vector2(0.0, i.matrixHeight)) == i.matrixHeight
    ensures ImageArea(pageHeight, i, length)
      == FromBox(i.start.x, pageHeight - i.start.y - i.matrixHeight, i.matrixWidth, i.matrixHeight)
  {
    var x := i.start.x;
    var y := pageHeight - i.start.y - i.matrixHeight;
    GenerationsAgree(x, y, i.matrixWidth, i.matrixHeight, length);
  }

  /** The block `AddTextData` appends for a glyph run whose font the font manager measured as `fontInfo`. */
  function RenderedText(pageHeight: real, t: TextRender, fontInfo: FontMeta, length: Vector2 -> real, uid: Guid): (b: DataBlock)
    ensures b.IsTextBlock() && b.uid == uid && b.children.NullChildren?
    ensures b.Attrs().scale * 100.0 == t.xScale && b.Attrs().text == t.text
    ensures b.Attrs().fontInfoUid == fontInfo.uid && b.Attrs().lineSize == fontInfo.lineSizePoint * t.sizeAdjusted
    ensures b.Attrs().textBoxIds == Some([t.mcid as real])
    ensures b.area.GetPoints() == [FlipY(pageHeight, t.ascentStart), FlipY(pageHeight, t.ascentEnd),
                                   FlipY(pageHeight, t.descentEnd), FlipY(pageHeight, t.descentStart)]
  {
    NewTextBlock(uid, t.fontSize, t.sizeAdjusted, fontInfo.lineSizePoint * t.sizeAdjusted, t.xScale / 100.0,
                 t.magnitude, t.text, fontInfo.uid, t.singleSpaceWidth, TextArea(pageHeight, t, length),
                 Some([t.mcid as real]), Some(AnalyzeTags(t.tags)), NullChildren)
  }

  /** The block `AddImageData` appends for an image whose metadata the image manager answered (`None`: it threw). */
  function RenderedImage(pageHeight: real, i: ImageRender, resource: Option<ImageMeta>, length: Vector2 -> real,
                         uid: Guid): (b: DataBlock)
    ensures b.blockType == Image && b.detail.ImageDetail? && b.uid == uid && b.children.NullChildren?
    ensures b.detail.name == (if i.name.Some? then i.name.value else "")
    ensures b.detail.imageResourceUid == (if resource.Some? then Some(resource.value.uid) else None)
    ensures b.area.bottomLeft == FlipY(pageHeight, i.start)
  {
    NewImageBlock(uid, if i.name.Some? then i.name.value else "",
                  if resource.Some? then Some(resource.value.uid) else None,
                  ImageArea(pageHeight, i, length), AnalyzeTags(i.tags), NullChildren)
  }

  /** Every root is one of the builders of `all`. */
  ghost predicate RootsIn(roots: seq<DataBlockBuilder>, all: set<DataBlockBuilder>)
  {
    forall i :: 0 <= i < |roots| ==> roots[i] in all
  }

  class DataBlockExtractStrategy {
    /** The page height, used to flip PDF space into page space. */
    const pageHeight: real
    const skipImage: bool
    /** `Vector2.Length`, used by the corner constructor of `BlockArea`. */
    const length: Vector2 -> real
    /** `_fontManager` and `_imageManager`: the extractor's shared caches. */
    const fontManager: FontCache
    const imageManager: ImageCache
    /** The image manager's digest (SHA-512, then Base64) and raw-data encoding. */
    const digest: seq<bv8> -> string
    const encode: seq<bv8> -> seq<bv8>
    /** `_roots`: the top-level scopes, in the order they were opened. */
    var roots: seq<DataBlockBuilder>
    /** `_currentBlockBuilder`: the innermost open scope. */
    var current: Option<DataBlockBuilder>
    /** The next `Guid.NewGuid()`. */
    var nextUid: Guid
    /** Every builder created so far, and the stamp the next one gets. */
    ghost var all: set<DataBlockBuilder>
    ghost var nextStamp: nat

    ghost predicate Valid()
      reads this, all`children, fontManager, imageManager
    {
      && fontManager.Valid() && imageManager.Valid()
      && Ranked(all, nextStamp)
      && RootsIn(roots, all)
      && (forall i :: 0 <= i < |roots| ==> roots[i].parent.None?)
      && (current.Some? ==> current.value in all)
    }

    constructor (pageHeight: real, skipImage: bool, length: Vector2 -> real, firstUid: Guid,
                 fontManager: FontCache, imageManager: ImageCache,
                 digest: seq<bv8> -> string, encode: seq<bv8> -> seq<bv8>)
      requires fontManager.Valid() && imageManager.Valid()
      ensures Valid()
      ensures this.pageHeight == pageHeight && this.skipImage == skipImage && this.length == length
      ensures this.fontManager == fontManager && this.imageManager == imageManager
      ensures this.digest == digest && this.encode == encode
      ensures roots == [] && current == None && nextUid == firstUid
    {
      this.pageHeight := pageHeight;
      this.skipImage := skipImage;
      this.length := length;
      this.fontManager := fontManager;
      this.imageManager := imageManager;
      this.digest := digest;
      this.encode := encode;
      roots := [];
      current := None;
      nextUid := firstUid;
      all := {};
      nextStamp := 0;
    }

    /**
     * `BEGIN_TEXT`: a new scope inside the current one (a new root when no
     * scope is open) becomes the current scope.
     */
    method BeginText()
      requires Valid()
      modifies this, if current.Some? then {current.value} else {}
      ensures Valid()
      ensures current.Some? && fresh(current.value) && current.value.parent == old(current)
      ensures current.value.children == [] && current.value.dataBlocks == []
      ensures roots == if old(current).None? then old(roots) + [current.value] else old(roots)
      ensures old(current).Some? ==>
        && old(current).value.children == old(current.value.children) + [current.value]
        && old(current).value.dataBlocks == old(current.value.dataBlocks)
      ensures nextUid == old(nextUid)
    {
      var b := new DataBlockBuilder(current, nextStamp);
      if current.None? {
        roots := roots + [b];
      }
      current := Some(b);
      all := all + {b};
      nextStamp := nextStamp + 1;
    }

    /** `END_TEXT`: the parent of the current scope becomes current; with no open scope nothing changes. */
    method EndText()
      requires Valid()
      modifies this
      ensures Valid()
      ensures current == if old(current).Some? then old(current).value.parent else None
      ensures roots == old(roots) && nextUid == old(nextUid)
    {
      current := if current.Some? then current.value.parent else None;
    }

    /**
     * `DataTextBlockExtraction`: the font manager measures the glyph run's
     * font (or answers from its cache), and the glyph run becomes a text block
     * of the current scope. A disposed font manager throws; with no open scope
     * the builder is null and the call throws after the font was measured.
     * The listener logs either exception: no block is added.
     */
    method TextExtraction(t: TextRender)
      requires Valid() && InFloatRange(Widths(t.font, t.fontSize))
      modifies this, fontManager, if current.Some? then {current.value} else {}
      ensures Valid()
      ensures current == old(current) && roots == old(roots)
      ensures old(fontManager.lockDisposed) ==> unchanged(fontManager) && nextUid == old(nextUid)
      ensures old(fontManager.Lookup(t.font.name, t.fontSize)).Some? ==> unchanged(fontManager)
      ensures !old(fontManager.lockDisposed) ==> fontManager.Lookup(t.font.name, t.fontSize).Some?
      ensures old(current).None? ==> nextUid == old(nextUid)
      ensures old(current).Some? ==> current.value.children == old(current.value.children)
      ensures old(current).Some? && old(fontManager.lockDisposed) ==>
        current.value.dataBlocks == old(current.value.dataBlocks)
      ensures old(current).Some? && !old(fontManager.lockDisposed) ==>
        && current.value.dataBlocks == old(current.value.dataBlocks)
             + [RenderedText(pageHeight, t, fontManager.Lookup(t.font.name, t.fontSize).value, length, old(nextUid))]
        && nextUid == old(nextUid) + 1
    {
      var fontInfo := fontManager.AddOrGetFontInfo(t.fontSize, t.font);
      if fontInfo.Err? || current.None? {
        return;
      }
      var scope := current.value;
      scope.AddTextData(nextUid, t.fontSize, t.sizeAdjusted, fontInfo.value, t.singleSpaceWidth,
                                fontInfo.value.lineSizePoint * t.sizeAdjusted, t.xScale, t.magnitude,
                                TextArea(pageHeight, t, length), t.text, t.mcid as real, t.tags);
      ghost var b := RenderedText(pageHeight, t, fontInfo.value, length, nextUid);
      assert b.detail == scope.dataBlocks[|scope.dataBlocks| - 1].detail && b.tags == Some(AnalyzeTags(t.tags));
      assert scope.dataBlocks == old(scope.dataBlocks) + [b];
      nextUid := nextUid + 1;
    }

    /** `AddImageData` on the current scope, with a new Uid. */
    method AppendImage(i: ImageRender, resource: Option<ImageMeta>)
      requires Valid() && current.Some?
      modifies this, current.value
      ensures Valid()
      ensures current == old(current) && roots == old(roots) && nextUid == old(nextUid) + 1
      ensures current.value.dataBlocks == old(current.value.dataBlocks) + [RenderedImage(pageHeight, i, resource, length, old(nextUid))]
      ensures current.value.children == old(current.value.children)
    {
      var scope := current.value;
      scope.AddImageData(nextUid, i.name, resource, ImageArea(pageHeight, i, length), i.tags);
      assert scope.dataBlocks == old(scope.dataBlocks) + [RenderedImage(pageHeight, i, resource, length, nextUid)];
      nextUid := nextUid + 1;
    }

    /**
     * `DataImageBlockExtraction`: unless images are skipped, the image manager
     * stores the image (or finds it by its digest) and the image becomes an
     * image block of the current scope; with no open scope it gets a root
     * scope of its own, opened and closed around it. When the image manager
     * throws, the exception is logged and the block carries no resource.
     */
    method ImageExtraction(i: ImageRender)
      requires Valid()
      modifies this, imageManager, if current.Some? then {current.value} else {}
      ensures Valid()
      ensures current == old(current)
      ensures skipImage ==> roots == old(roots) && nextUid == old(nextUid) && unchanged(imageManager)
      ensures skipImage && old(current).Some? ==> current.value.dataBlocks == old(current.value.dataBlocks)
      ensures old(imageManager.Cached(i.image, digest)).Some? ==> unchanged(imageManager)
      ensures !skipImage ==> nextUid == old(nextUid) + 1
      ensures !skipImage ==>
        (imageManager.Cached(i.image, digest).Some? <==> i.image.bytes.Some? && !old(imageManager.lockDisposed))
      ensures !skipImage && old(current).Some? ==>
        && roots == old(roots)
        && current.value.dataBlocks == old(current.value.dataBlocks)
             + [RenderedImage(pageHeight, i, imageManager.Cached(i.image, digest), length, old(nextUid))]
        && current.value.children == old(current.value.children)
      ensures !skipImage && old(current).None? ==>
        && |roots| > 0 && roots == old(roots) + [roots[|roots| - 1]]
        && fresh(roots[|roots| - 1])
        && roots[|roots| - 1].dataBlocks == [RenderedImage(pageHeight, i, imageManager.Cached(i.image, digest), length, old(nextUid))]
        && roots[|roots| - 1].children == []
    {
      if skipImage {
        return;
      }
      var needCreateBlock := current.None?;
      if needCreateBlock {
        BeginText();
      }
      var metaData := imageManager.AddImageResource(i.image, digest, encode);
      var resource := if metaData.Ok? then Some(metaData.value) else None;
      assert resource == imageManager.Cached(i.image, digest);
      AppendImage(i, resource);
      if needCreateBlock {
        EndText();
      }
    }

    /**
     * `EventOccurred`: scope events open and close scopes; any other event is
     * dispatched on its payload's type. A null payload makes the dispatch
     * throw, which the listener logs; a payload with no processor is
     * `NotImplementedException`.
     */
    method EventOccurred(data: EventData, kind: EventType) returns (r: Result<()>)
      requires Valid()
      requires data.TextData? ==> InFloatRange(Widths(data.text.font, data.text.fontSize))
      modifies this, fontManager, imageManager, if current.Some? then {current.value} else {}
      ensures Valid()
      ensures r.Err? <==> !kind.BeginText? && !kind.EndText? && data.OtherData?
      ensures r.Err? ==> r.error == NotImplemented
      ensures kind.BeginText? ==>
        && current.Some? && fresh(current.value) && current.value.parent == old(current)
        && roots == (if old(current).None? then old(roots) + [current.value] else old(roots))
      ensures kind.EndText? ==>
        current == (if old(current).Some? then old(current).value.parent else None) && roots == old(roots)
      ensures !kind.BeginText? && !kind.EndText? ==> current == old(current)
      ensures !kind.BeginText? && !kind.EndText? && (data.NoData? || data.OtherData?) ==>
        roots == old(roots) && nextUid == old(nextUid)
      ensures kind.BeginText? || kind.EndText? || !data.TextData? ==> unchanged(fontManager)
      ensures kind.BeginText? || kind.EndText? || !data.ImageData? ==> unchanged(imageManager)
      ensures !kind.BeginText? && !kind.EndText? && data.TextData? && !old(fontManager.lockDisposed) ==>
        fontManager.Lookup(data.text.font.name, data.text.fontSize).Some?
      ensures !kind.BeginText? && !kind.EndText? && data.TextData? && old(current).Some? && !old(fontManager.lockDisposed) ==>
        current.value.dataBlocks == old(current.value.dataBlocks)
          + [RenderedText(pageHeight, data.text, fontManager.Lookup(data.text.font.name, data.text.fontSize).value, length, old(nextUid))]
      ensures !kind.BeginText? && !kind.EndText? && data.ImageData? && !skipImage && old(current).Some? ==>
        current.value.dataBlocks == old(current.value.dataBlocks)
          + [RenderedImage(pageHeight, data.image, imageManager.Cached(data.image.image, digest), length, old(nextUid))]
    {
      if kind.BeginText? {
        BeginText();
        return Ok(());
      }
      if kind.EndText? {
        EndText();
        return Ok(());
      }
      match data
      case NoData =>
        r := Ok(());
      case TextData(t) =>
        TextExtraction(t);
        r := Ok(());
      case ImageData(i) =>
        ImageExtraction(i);
        r := Ok(());
      case OtherData =>
        r := Err(NotImplemented);
    }

    /**
     * `CompileDataBlocks`: each root scope consolidated in turn, their blocks
     * concatenated, and the whole run once more through the pipeline.
     */
    method CompileDataBlocks(strategies: seq<Strategy>) returns (r: Result<Merged>)
      requires Valid()
      ensures r == CompileSpec(roots, all, nextStamp, strategies, nextUid)
    {
      r := CompileRoots(roots, all, nextStamp, strategies, nextUid);
    }
  }

  /** `CompileDataBlocks`: every root consolidated in turn, then the page through the merge pipeline once more. */
  method CompileRoots(roots: seq<DataBlockBuilder>, ghost all: set<DataBlockBuilder>, ghost limit: nat,
                      strategies: seq<Strategy>, uid: Guid) returns (r: Result<Merged>)
    requires RootsIn(roots, all) && Ranked(all, limit)
    ensures r == CompileSpec(roots, all, limit, strategies, uid)
  {
    var gathered := GatherRoots(roots, all, limit, strategies, uid);
    if gathered.Err? {
      return Err(gathered.error);
    }
    r := Apply(strategies, Some(gathered.value.blocks), gathered.value.nextUid);
  }

  /** The loop of `CompileDataBlocks`, over the roots of a ranked scope forest. */
  method GatherRoots(roots: seq<DataBlockBuilder>, ghost all: set<DataBlockBuilder>, ghost limit: nat,
                     strategies: seq<Strategy>, uid: Guid) returns (r: Result<Merged>)
    requires RootsIn(roots, all) && Ranked(all, limit)
    ensures r == RootsGathered(roots, |roots|, all, limit, strategies, uid)
  {
    var blocks: seq<DataBlock> := [];
    var next := uid;
    var k := 0;
    while k < |roots|
      invariant 0 <= k <= |roots|
      invariant RootsGathered(roots, k, all, limit, strategies, uid) == Ok(Merged(blocks, next))
    {
      var results := ConsolidateRoot(roots, k, all, limit, strategies, uid, blocks, next);
      if results.Err? {
        RootsGatheredErr(roots, k + 1, |roots|, all, limit, strategies, uid);
        return Err(results.error);
      }
      blocks := blocks + results.value.blocks;
      next := results.value.nextUid;
      k := k + 1;
    }
    r := Ok(Merged(blocks, next));
  }

  /** One turn of the loop of `CompileDataBlocks`: root `k` consolidated. */
  method ConsolidateRoot(roots: seq<DataBlockBuilder>, k: nat, ghost all: set<DataBlockBuilder>, ghost limit: nat,
                         strategies: seq<Strategy>, ghost uid: Guid, ghost blocks: seq<DataBlock>, next: Guid)
    returns (results: Result<Merged>)
    requires RootsIn(roots, all) && Ranked(all, limit) && k < |roots|
    requires RootsGathered(roots, k, all, limit, strategies, uid) == Ok(Merged(blocks, next))
    ensures results.Err? ==> RootsGathered(roots, k + 1, all, limit, strategies, uid) == Err(results.error)
    ensures results.Ok? ==>
      RootsGathered(roots, k + 1, all, limit, strategies, uid) == Ok(Merged(blocks + results.value.blocks, results.value.nextUid))
  {
    assert roots[k] in all;
    results := roots[k].Consolidate(strategies, next, all, limit);
    RootsGatheredStep(roots, k, all, limit, strategies, uid, blocks, next, results);
  }

  /** The consolidated blocks of the first `i` roots, concatenated. */
  ghost function RootsGathered(roots: seq<DataBlockBuilder>, i: nat, all: set<DataBlockBuilder>, limit: nat,
                               strategies: seq<Strategy>, uid: Guid): Result<Merged>
    requires RootsIn(roots, all) && Ranked(all, limit) && i <= |roots|
    reads all
  {
    if i == 0 then Ok(Merged([], uid))
    else
      match RootsGathered(roots, i - 1, all, limit, strategies, uid)
      case Err(e) => Err(e)
      case Ok(m) =>
        match ConsolidateSpec(roots[i - 1], all, limit, strategies, m.nextUid)
        case Err(e) => Err(e)
        case Ok(c) => Ok(Merged(m.blocks + c.blocks, c.nextUid))
  }

  /** What `CompileDataBlocks` returns. */
  ghost function CompileSpec(roots: seq<DataBlockBuilder>, all: set<DataBlockBuilder>, limit: nat,
                             strategies: seq<Strategy>, uid: Guid): Result<Merged>
    requires RootsIn(roots, all) && Ranked(all, limit)
    reads all
  {
    match RootsGathered(roots, |roots|, all, limit, strategies, uid)
    case Err(e) => Err(e)
    case Ok(m) => ApplySpec(strategies, Some(m.blocks), m.nextUid)
  }

  /** The outcome of consolidating root `k`: the compilation's exception, or one more root gathered. */
  lemma RootsGatheredStep(roots: seq<DataBlockBuilder>, k: nat, all: set<DataBlockBuilder>, limit: nat,
                          strategies: seq<Strategy>, uid: Guid, blocks: seq<DataBlock>, next: Guid, c: Result<Merged>)
    requires RootsIn(roots, all) && Ranked(all, limit) && k < |roots|
    requires RootsGathered(roots, k, all, limit, strategies, uid) == Ok(Merged(blocks, next))
    requires roots[k] in all && c == ConsolidateSpec(roots[k], all, limit, strategies, next)
    ensures c.Err? ==> RootsGathered(roots, k + 1, all, limit, strategies, uid) == Err(c.error)
    ensures c.Ok? ==> RootsGathered(roots, k + 1, all, limit, strategies, uid) == Ok(Merged(blocks + c.value.blocks, c.value.nextUid))
  {
  }

  /** A root's exception ends the compilation: every later prefix fails the same way. */
  lemma {:induction false} RootsGatheredErr(roots: seq<DataBlockBuilder>, i: nat, j: nat, all: set<DataBlockBuilder>,
                                            limit: nat, strategies: seq<Strategy>, uid: Guid)
    requires RootsIn(roots, all) && Ranked(all, limit) && i <= j <= |roots|
    requires RootsGathered(roots, i, all, limit, strategies, uid).Err?
    ensures RootsGathered(roots, j, all, limit, strategies, uid) == RootsGathered(roots, i, all, limit, strategies, uid)
    decreases j
  {
    if j > i {
      RootsGatheredErr(roots, i, j - 1, all, limit, strategies, uid);
    }
  }

  /** Every block drawn under the first `i` roots, scope by scope in pre-order. */
  ghost function RootsCollected(roots: seq<DataBlockBuilder>, i: nat, all: set<DataBlockBuilder>, limit: nat): seq<DataBlock>
    requires RootsIn(roots, all) && Ranked(all, limit) && i <= |roots|
    reads all
  {
    if i == 0 then [] else RootsCollected(roots, i - 1, all, limit) + Collected(roots[i - 1], all, limit)
  }

  /** With no strategy the page's blocks are every drawn block, in scope pre-order, and no Uid is spent. */
  lemma {:induction false} CompileWithoutStrategies(roots: seq<DataBlockBuilder>, all: set<DataBlockBuilder>,
                                                    limit: nat, uid: Guid)
    requires RootsIn(roots, all) && Ranked(all, limit)
    ensures CompileSpec(roots, all, limit, [], uid) == Ok(Merged(RootsCollected(roots, |roots|, all, limit), uid))
  {
    RootsWithoutStrategies(roots, |roots|, all, limit, uid);
  }

  lemma {:induction false} RootsWithoutStrategies(roots: seq<DataBlockBuilder>, i: nat, all: set<DataBlockBuilder>,
                                                  limit: nat, uid: Guid)
    requires RootsIn(roots, all) && Ranked(all, limit) && i <= |roots|
    ensures RootsGathered(roots, i, all, limit, [], uid) == Ok(Merged(RootsCollected(roots, i, all, limit), uid))
  {
    if i > 0 {
      RootsWithoutStrategies(roots, i - 1, all, limit, uid);
      var root := roots[i - 1];
      assert root in all;
      NoStrategyCollects(root, all, limit, uid);
      var before := RootsCollected(roots, i - 1, all, limit);
      assert RootsGathered(roots, i, all, limit, [], uid)
        == Ok(Merged(before + Collected(root, all, limit), uid));
    }
  }

  /**
   * With strategies that only reorder, the page keeps exactly the drawn
   * blocks, as a multiset, and spends no Uid.
   */
  lemma {:induction false} CompileIdentity(roots: seq<DataBlockBuilder>, all: set<DataBlockBuilder>, limit: nat,
                                           strategies: seq<Strategy>, uid: Guid)
    requires RootsIn(roots, all) && Ranked(all, limit)
    requires forall k :: 0 <= k < |strategies| ==> Narrowed(strategies[k]) && Identity(strategies[k])
    ensures CompileSpec(roots, all, limit, strategies, uid).Ok?
    ensures multiset(CompileSpec(roots, all, limit, strategies, uid).value.blocks)
      == multiset(RootsCollected(roots, |roots|, all, limit))
    ensures CompileSpec(roots, all, limit, strategies, uid).value.nextUid == uid
  {
    RootsIdentity(roots, |roots|, all, limit, strategies, uid);
    var m := RootsGathered(roots, |roots|, all, limit, strategies, uid).value;
    IdentityPermutes(strategies, m.blocks, uid);
  }

  lemma {:induction false} RootsIdentity(roots: seq<DataBlockBuilder>, i: nat, all: set<DataBlockBuilder>, limit: nat,
                                         strategies: seq<Strategy>, uid: Guid)
    requires RootsIn(roots, all) && Ranked(all, limit) && i <= |roots|
    requires forall k :: 0 <= k < |strategies| ==> Narrowed(strategies[k]) && Identity(strategies[k])
    ensures RootsGathered(roots, i, all, limit, strategies, uid).Ok?
    ensures multiset(RootsGathered(roots, i, all, limit, strategies, uid).value.blocks)
      == multiset(RootsCollected(roots, i, all, limit))
    ensures RootsGathered(roots, i, all, limit, strategies, uid).value.nextUid == uid
  {
    if i > 0 {
      RootsIdentity(roots, i - 1, all, limit, strategies, uid);
      IdentityConsolidates(roots[i - 1], all, limit, strategies, uid);
    }
  }

  /** A block `ConstructRelationStruct` builds a relation for: a text block with at least one child. */
  predicate IsRelationHost(b: DataBlock)
  {
    b.IsTextual() && b.children.ChildList? && |b.children.items| > 0
  }

  /**
   * `ConstructRelationStruct`: no relation for an empty group result; the
   * first relation host's group is compiled, and `Compile` throws, so any
   * host at all makes the whole construction throw.
   */
  function ConstructRelationStruct(grp: seq<DataBlock>, relation: BlockRelationType, customRelationType: string,
                                   weight: real): (r: Result<seq<DataBlock>>)
    ensures r.Err? <==> exists k :: 0 <= k < |grp| && IsRelationHost(grp[k])
    ensures r.Err? ==> r.error == NotImplemented
    ensures r.Ok? ==> r.value == []
  {
    if |grp| == 0 then Ok([])
    else
      var hosts := Filter(grp, IsRelationHost);
      if hosts == [] then
        assert forall k :: 0 <= k < |grp| ==> !IsRelationHost(grp[k]) by {
          forall k | 0 <= k < |grp| ensures !IsRelationHost(grp[k]) {
            assert grp[k] in grp;
          }
        }
        Ok([])
      else
        assert hosts[0] in hosts;
        Err(NotImplemented)
  }
}
