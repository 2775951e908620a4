/**
 * `PDFExtractor`: the entry point. It owns the font and image managers and
 * the default merge strategies, turns the caller's page range into page
 * numbers, analyses the pages one after the other or in parallel, and
 * assembles the document block.
 *
 * The analysis of one page (the parser run and `DataBlockExtractStrategy.Compile`)
 * is a parameter: page number and merge strategies to page block.
 */
module Extractor {
  import opened Wrappers
  import opened Geometry
  import opened Blocks
  import opened Sibling
  import opened Pipeline
  import opened Fonts
  import opened Images

  /** The three sibling strategies used when the caller supplies none: horizontal, then vertical aligned left, then vertical aligned right. */
  function DefaultStrategies(ops: FloatOps, fonts: map<Guid, FontMeta>): (s: seq<Strategy>)
    ensures |s| == 3
    ensures forall k :: 0 <= k < |s| ==> Narrowed(s[k]) && forall b :: s[k].managed(b) <==> b.IsTextBlock()
  {
    [SiblingStrategy(Horizontal, ops, fonts, DefaultMaxMergeCount),
     SiblingStrategy(Vertical(false), ops, fonts, DefaultMaxMergeCount),
     SiblingStrategy(Vertical(true), ops, fonts, DefaultMaxMergeCount)]
  }

  /** The default strategies, in order, are the horizontal, the left-aligned vertical and the right-aligned vertical sibling merge. */
  lemma DefaultStrategiesOrder(ops: FloatOps, fonts: map<Guid, FontMeta>)
    ensures DefaultStrategies(ops, fonts)
      == [SiblingStrategy(Horizontal, ops, fonts, DefaultMaxMergeCount)]
       + [SiblingStrategy(Vertical(false), ops, fonts, DefaultMaxMergeCount)]
       + [SiblingStrategy(Vertical(true), ops, fonts, DefaultMaxMergeCount)]
  {
  }

  /** One round of the default strategies never lengthens the block list. */
  lemma {:induction false} DefaultPipelineNeverGrows(ops: FloatOps, fonts: map<Guid, FontMeta>, l: seq<DataBlock>, uid: Guid)
    ensures var r := ApplyFrom(DefaultStrategies(ops, fonts), l, uid);
      r.Ok? ==> |r.value.blocks| <= |l|
  {
    var s := DefaultStrategies(ops, fonts);
    SiblingIsNeverGrowing(Horizontal, ops, fonts, DefaultMaxMergeCount);
    SiblingIsNeverGrowing(Vertical(false), ops, fonts, DefaultMaxMergeCount);
    SiblingIsNeverGrowing(Vertical(true), ops, fonts, DefaultMaxMergeCount);
    ApplyFromNeverGrows(s, l, uid);
  }

  /** `SemaphoreSlim(Math.Max((int)maxSimulaniousParallelAnalyze, 2))`: the unsigned count is cast to a 32-bit signed integer first. */
  function Concurrency(maxParallel: nat): (r: int)
    requires maxParallel < 0x1_0000_0000
    ensures r >= 2
    ensures maxParallel < 0x8000_0000 ==> r == (if maxParallel < 2 then 2 else maxParallel)
    ensures maxParallel >= 0x8000_0000 ==> r == 2
  {
    var signed := if maxParallel < 0x8000_0000 then maxParallel else maxParallel - 0x1_0000_0000;
    if signed > 2 then signed else 2
  }

  /** A `System.Index`: a position from the start, or (`^value`) from the end. */
  datatype PageIndex = PageIndex(value: nat, fromEnd: bool)

  /** A `System.Range` of page indexes. */
  datatype PageRange = PageRange(start: PageIndex, end: PageIndex)

  /** `Index.GetOffset(length)`. */
  function GetOffset(i: PageIndex, length: int): (r: int)
    ensures !i.fromEnd ==> r == i.value
    ensures i.fromEnd ==> r + i.value == length
  {
    if i.fromEnd then length - i.value else i.value
  }

  /** The range `..`: from index 0 to `^0`. */
  const WholeRange: PageRange := PageRange(PageIndex(0, false), PageIndex(0, true))

  /** The first page number analysed, as written: offsets taken over `lastPageNumber - 1` pages. */
  function RangeStartAsWritten(range: Option<PageRange>, lastPage: nat): (p: int)
    ensures range.None? ==> p == 1
    ensures range.Some? ==> p - 1 == GetOffset(range.value.start, lastPage - 1)
  {
    if range.None? then 1 else GetOffset(range.value.start, lastPage - 1) + 1
  }

  /** The bound page numbers stay below, as written: `lastPageNumber` by default. */
  function RangeEndAsWritten(range: Option<PageRange>, lastPage: nat): (p: int)
    ensures range.None? ==> p == lastPage
    ensures range.Some? ==> p - 1 == GetOffset(range.value.end, lastPage - 1)
  {
    if range.None? then lastPage else GetOffset(range.value.end, lastPage - 1) + 1
  }

  /** The first page number analysed: the range's start index over the document's pages, made one-based. */
  function RangeStart(range: Option<PageRange>, lastPage: nat): (p: int)
    ensures range.None? ==> p == 1
    ensures range.Some? ==> p - 1 == GetOffset(range.value.start, lastPage)
  {
    if range.None? then 1 else GetOffset(range.value.start, lastPage) + 1
  }

  /** The page number the analysis stops before: the range's end index, made one-based, or one past the last page. */
  function RangeEnd(range: Option<PageRange>, lastPage: nat): (p: int)
    ensures range.None? ==> p == lastPage + 1
    ensures range.Some? ==> p - 1 == GetOffset(range.value.end, lastPage)
  {
    if range.None? then lastPage + 1 else GetOffset(range.value.end, lastPage) + 1
  }

  /** Page `p` lies in the page numbers `[start, end)` of a range exactly when its index `p - 1` lies in the C# range. */
  lemma RangeIsIndexRange(range: PageRange, lastPage: nat, p: int)
    ensures RangeStart(Some(range), lastPage) <= p < RangeEnd(Some(range), lastPage)
      <==> GetOffset(range.start, lastPage) <= p - 1 < GetOffset(range.end, lastPage)
  {
  }

  /** No range and the range `..` both select every page, first to last. */
  lemma WholeRangeIsDefault(lastPage: nat)
    ensures RangeStart(Some(WholeRange), lastPage) == RangeStart(None, lastPage) == 1
    ensures RangeEnd(Some(WholeRange), lastPage) == RangeEnd(None, lastPage) == lastPage + 1
  {
  }

  /** Ranges counted from the start mean the same page numbers in both computations (the viewer asks for `new Range(d - 1, d)`: page `d` alone). */
  lemma ForwardRangesAgree(range: PageRange, lastPage: nat)
    requires !range.start.fromEnd && !range.end.fromEnd
    ensures RangeStartAsWritten(Some(range), lastPage) == RangeStart(Some(range), lastPage) == range.start.value + 1
    ensures RangeEndAsWritten(Some(range), lastPage) == RangeEnd(Some(range), lastPage) == range.end.value + 1
  {
  }

  /**
   * The page blocks of pages `start` up to `end` (excluded), page `p` at index
   * `p - start`. A negative array length throws `OverflowException`, and
   * asking the document for a page it lacks throws.
   */
  function Pages(start: int, end: int, lastPage: nat, analyse: int -> DataBlock): (r: Result<seq<Option<DataBlock>>>)
    ensures r == Err(Overflow) <==> end < start
    ensures start < end && (start < 1 || lastPage < end - 1) ==> r == Err(IndexOutOfRange)
    ensures r.Err? ==> r.error == Overflow || r.error == IndexOutOfRange
    ensures r.Ok? ==> |r.value| == end - start
    ensures r.Ok? ==> forall k :: 0 <= k < |r.value| ==> r.value[k] == Some(analyse(start + k))
  {
    if end < start then Err(Overflow)
    else if start < end && (start < 1 || lastPage < end - 1) then Err(IndexOutOfRange)
    else Ok(seq(end - start, k => Some(analyse(start + k))))
  }

  /** The sequential path: an array of `end - start` page blocks, filled page by page. */
  method AnalyseSequential(start: int, end: int, lastPage: nat, analyse: int -> DataBlock)
    returns (r: Result<seq<Option<DataBlock>>>)
    ensures r == Pages(start, end, lastPage, analyse)
  {
    if end < start {
      return Err(Overflow);
    }
    var pageBlocks := new Option<DataBlock>[end - start](_ => None);
    var pageNumber := start;
    while pageNumber < end
      invariant start <= pageNumber <= end
      invariant pageNumber > start ==> 1 <= start && pageNumber - 1 <= lastPage
      invariant forall k :: 0 <= k < pageNumber - start ==> pageBlocks[k] == Some(analyse(start + k))
    {
      if pageNumber < 1 || lastPage < pageNumber {
        assert start < end && (start < 1 || lastPage < end - 1);
        return Err(IndexOutOfRange);
      }
      pageBlocks[pageNumber - start] := Some(analyse(pageNumber));
      pageNumber := pageNumber + 1;
    }
    assert pageBlocks[..] == seq(end - start, k => Some(analyse(start + k)));
    r := Ok(pageBlocks[..]);
  }

  /**
   * The parallel path as written: pages `start` to `end` (included) that the
   * document has are analysed, but their results are awaited and dropped, so
   * every slot of the page array stays null.
   */
  function AsyncPagesAsWritten(start: int, end: int, lastPage: nat, analyse: int -> DataBlock): (r: Result<seq<Option<DataBlock>>>)
    ensures r == Err(Overflow) <==> end < start
    ensures r.Ok? ==> |r.value| == end - start && forall k :: 0 <= k < |r.value| ==> r.value[k].None?
  {
    if end < start then Err(Overflow)
    else if start < 1 then Err(IndexOutOfRange)
    else Ok(seq(end - start, _ => None))
  }

  /**
   * With the page numbers as written, the last page is never analysed: the
   * page array holds pages 1 to `lastPage - 1`, one slot short.
   */
  lemma {:induction false} LastPageSkippedAsWritten(lastPage: nat, analyse: int -> DataBlock)
    requires lastPage >= 1
    ensures var r := Pages(RangeStartAsWritten(None, lastPage), RangeEndAsWritten(None, lastPage), lastPage, analyse);
      && r.Ok? && |r.value| == lastPage - 1
      && forall k :: 0 <= k < |r.value| ==> r.value[k] == Some(analyse(k + 1)) && k + 1 < lastPage
  {
    var r := Pages(1, lastPage, lastPage, analyse);
    assert r.Ok?;
    forall k | 0 <= k < |r.value|
      ensures r.value[k] == Some(analyse(k + 1))
    {
      assert r.value[k] == Some(analyse(1 + k));
    }
  }

  /** A one-page document, analysed with the page numbers as written, has no page at all. */
  lemma OnePageAsWritten(analyse: int -> DataBlock)
    ensures Pages(RangeStartAsWritten(None, 1), RangeEndAsWritten(None, 1), 1, analyse) == Ok([])
    ensures Pages(RangeStart(None, 1), RangeEnd(None, 1), 1, analyse) == Ok([Some(analyse(1))])
  {
    var r := Pages(1, 2, 1, analyse);
    assert r.value[0] == Some(analyse(1));
    assert r.value == [Some(analyse(1))];
  }

  /** Page blocks, in page order, for every page of the document, first to last. */
  lemma {:induction false} EveryPageAnalysed(lastPage: nat, analyse: int -> DataBlock)
    ensures var r := Pages(RangeStart(None, lastPage), RangeEnd(None, lastPage), lastPage, analyse);
      && r.Ok? && |r.value| == lastPage
      && forall p :: 1 <= p <= lastPage ==> r.value[p - 1] == Some(analyse(p))
  {
    var r := Pages(1, lastPage + 1, lastPage, analyse);
    assert r.Ok?;
    forall p | 1 <= p <= lastPage
      ensures r.value[p - 1] == Some(analyse(p))
    {
      assert r.value[p - 1] == Some(analyse(1 + (p - 1)));
    }
  }

  /** The parallel path as written returns no page even when every requested page was analysed. */
  lemma {:induction false} AsyncDropsPages(start: int, end: int, lastPage: nat, analyse: int -> DataBlock)
    requires 1 <= start < end && end - 1 <= lastPage
    ensures AsyncPagesAsWritten(start, end, lastPage, analyse).Ok?
    ensures Pages(start, end, lastPage, analyse).Ok?
    ensures AsyncPagesAsWritten(start, end, lastPage, analyse).value[0].None?
    ensures Pages(start, end, lastPage, analyse).value[0] == Some(analyse(start))
  {
    var w := AsyncPagesAsWritten(start, end, lastPage, analyse);
    assert |w.value| == end - start;
  }

  /**
   * The parallel path, with the results stored: pages `start` up to `end`
   * (excluded) that the document has are analysed, page `p` at index
   * `p - start`; the slots of pages past the document stay empty. Asking
   * for a page before the first throws.
   */
  function AsyncPages(start: int, end: int, lastPage: nat, analyse: int -> DataBlock): (r: Result<seq<Option<DataBlock>>>)
    ensures r == Err(Overflow) <==> end < start
    ensures r == Err(IndexOutOfRange) <==> start < end && start < 1
    ensures r.Ok? ==> |r.value| == end - start
    ensures r.Ok? ==> forall k :: 0 <= k < |r.value| ==>
      (start + k <= lastPage ==> r.value[k] == Some(analyse(start + k))) && (lastPage < start + k ==> r.value[k].None?)
  {
    if end < start then Err(Overflow)
    else if start < end && start < 1 then Err(IndexOutOfRange)
    else Ok(seq(end - start, k => if start + k <= lastPage then Some(analyse(start + k)) else None))
  }

  /** Within the document, the two paths fill the page array alike. */
  lemma AsyncAgreesWithSequential(start: int, end: int, lastPage: nat, analyse: int -> DataBlock)
    requires end < start || end - 1 <= lastPage
    ensures AsyncPages(start, end, lastPage, analyse) == Pages(start, end, lastPage, analyse)
  {
    if start <= end && (start == end || 1 <= start) {
      assert AsyncPages(start, end, lastPage, analyse).value == Pages(start, end, lastPage, analyse).value;
    }
  }

  /**
   * A range reaching past the document: the sequential path throws, while the
   * parallel path gives the pages from `start` to the last one, in order.
   */
  lemma {:induction false} AsyncSkipsMissingPages(start: int, end: int, lastPage: nat, analyse: int -> DataBlock)
    requires 1 <= start <= lastPage + 1 <= end
    ensures end - 1 > lastPage ==> Pages(start, end, lastPage, analyse) == Err(IndexOutOfRange)
    ensures AsyncPages(start, end, lastPage, analyse).Ok?
    ensures Present(AsyncPages(start, end, lastPage, analyse).value) == seq(lastPage + 1 - start, k => analyse(start + k))
  {
    var v := AsyncPages(start, end, lastPage, analyse).value;
    var n := lastPage + 1 - start;
    PresentOfPrefix(v, n);
    assert seq(n, k requires 0 <= k < n => v[k].value) == seq(n, k => analyse(start + k));
  }

  /** A page array filled up to `n` and empty after it holds the first `n` pages. */
  lemma {:induction false} PresentOfPrefix(v: seq<Option<DataBlock>>, n: nat)
    requires n <= |v|
    requires forall k :: 0 <= k < n ==> v[k].Some?
    requires forall k :: n <= k < |v| ==> v[k].None?
    ensures Present(v) == seq(n, k requires 0 <= k < n => v[k].value)
  {
    var filled, empty := v[..n], v[n..];
    assert Present(v) == Present(filled) + Present(empty) by {
      assert v == filled + empty;
      PresentAppend(filled, empty);
    }
    assert Present(empty) == [] by {
      assert forall k :: 0 <= k < |empty| ==> empty[k] == v[n + k];
      PresentNone(empty);
    }
  }

  /** A page array of empty slots has no page. */
  lemma {:induction false} PresentNone(s: seq<Option<DataBlock>>)
    requires forall k :: 0 <= k < |s| ==> s[k].None?
    ensures Present(s) == []
  {
    if s != [] {
      PresentNone(s[1..]);
    }
  }

  /** What the extractor reads from a `PdfDocument`. */
  datatype PdfDoc = PdfDoc(
    lastPage: nat,                                       // GetNumberOfPages()
    left: real, top: real, right: real, bottom: real,    // GetDefaultPageSize()
    pdfVersion: string,
    author: string, keywords: string, producer: string, subject: string, title: string)

  /** `PDFExtractorOptions`; a null option object means every default. */
  datatype ExtractorOptions = ExtractorOptions(
    pageRange: Option<PageRange>,
    asynchronous: bool,
    overrideStrategies: Option<seq<Strategy>>,
    injectImageMetaData: bool)

  /** The page range asked for, if any. */
  function RangeOf(options: Option<ExtractorOptions>): Option<PageRange>
  {
    if options.Some? then options.value.pageRange else None
  }

  /** The document's default page size as an area, corners clockwise from the top-left one. */
  function PageArea(doc: PdfDoc, length: Vector2 -> real): (a: BlockArea)
    ensures a.GetPoints() == [BlockPoint(doc.left, doc.top), BlockPoint(doc.right, doc.top),
                              BlockPoint(doc.right, doc.bottom), BlockPoint(doc.left, doc.bottom)]
  {
    FromCorners(BlockPoint(doc.left, doc.top), BlockPoint(doc.right, doc.top),
                BlockPoint(doc.right, doc.bottom), BlockPoint(doc.left, doc.bottom), length)
  }

  /** The page blocks of a page array, in order; the empty slots are left out. */
  function Present(s: seq<Option<DataBlock>>): (r: seq<DataBlock>)
    ensures |r| <= |s|
    ensures forall b :: b in r <==> Some(b) in s
    ensures (forall k :: 0 <= k < |s| ==> s[k].Some?) ==> |r| == |s| && forall k :: 0 <= k < |s| ==> r[k] == s[k].value
  {
    if s == [] then []
    else (if s[0].Some? then [s[0].value] else []) + Present(s[1..])
  }

  /** Leaving out the empty slots distributes over concatenation. */
  lemma {:induction false} PresentAppend(a: seq<Option<DataBlock>>, b: seq<Option<DataBlock>>)
    ensures Present(a + b) == Present(a) + Present(b)
  {
    if a == [] {
      assert a + b == b;
    } else {
      var head := if a[0].Some? then [a[0].value] else [];
      assert (a + b)[0] == a[0] && (a + b)[1..] == a[1..] + b;
      assert Present(a + b) == head + Present(a[1..] + b);
      PresentAppend(a[1..], b);
      assert Present(a) == head + Present(a[1..]);
    }
  }

  class PdfExtractor {
    const fontManager: FontCache
    const imageManager: ImageCache
    /** The strategies given to the constructor; `None`: the default ones. */
    const mergeStrategies: Option<seq<Strategy>>
    const ops: FloatOps
    /** The page-analysis semaphore's count. */
    const concurrency: int
    /** `_disposeCounter`. */
    var disposeCounter: int
    /** `_lifetimeCancellationToken` has been cancelled. */
    var cancelled: bool

    /** Both managers are consistent, and the lifetime token is cancelled exactly once disposal began. */
    ghost predicate Valid()
      reads this, fontManager, imageManager
    {
      && fontManager.Valid() && imageManager.Valid()
      && disposeCounter >= 0 && (cancelled <==> disposeCounter > 0)
    }

    constructor (strategies: Option<seq<Strategy>>, fontManager: FontCache, imageManager: ImageCache,
                 maxParallel: nat, ops: FloatOps)
      requires maxParallel < 0x1_0000_0000
      requires fontManager.Valid() && imageManager.Valid()
      ensures Valid()
      ensures this.fontManager == fontManager && this.imageManager == imageManager
      ensures mergeStrategies == strategies && this.ops == ops
      ensures concurrency == Concurrency(maxParallel) && disposeCounter == 0
    {
      this.fontManager := fontManager;
      this.imageManager := imageManager;
      this.mergeStrategies := strategies;
      this.ops := ops;
      this.concurrency := Concurrency(maxParallel);
      disposeCounter := 0;
      cancelled := false;
    }

    /** The strategies a call uses: the options' override, else the constructor's, else the default three. */
    function Strategies(options: Option<ExtractorOptions>): (s: seq<Strategy>)
      reads this, fontManager
      ensures options.Some? && options.value.overrideStrategies.Some? ==> s == options.value.overrideStrategies.value
      ensures (options.None? || options.value.overrideStrategies.None?) && mergeStrategies.Some? ==> s == mergeStrategies.value
      ensures (options.None? || options.value.overrideStrategies.None?) && mergeStrategies.None? ==>
        s == DefaultStrategies(ops, fontManager.byUid)
    {
      if options.Some? && options.value.overrideStrategies.Some? then options.value.overrideStrategies.value
      else if mergeStrategies.Some? then mergeStrategies.value
      else DefaultStrategies(ops, fontManager.byUid)
    }

    /**
     * `AnalyseAsync(doc, documentName, token, options)`: the page blocks of
     * the requested pages in page order, the cached fonts and, unless the
     * options turn it off, the cached images, in one document block.
     */
    method AnalyseAsync(doc: PdfDoc, documentName: string, options: Option<ExtractorOptions>,
                        analyse: (int, seq<Strategy>) -> DataBlock, docUid: Guid)
      returns (r: Result<DataBlock>)
      requires Valid()
      ensures (var st := Strategies(options);
               var start := RangeStart(RangeOf(options), doc.lastPage);
               var end := RangeEnd(RangeOf(options), doc.lastPage);
               var pages := if options.None? || options.value.asynchronous
                            then AsyncPages(start, end, doc.lastPage, p => analyse(p, st))
                            else Pages(start, end, doc.lastPage, p => analyse(p, st));
               && (pages.Err? ==> r == Err(pages.error))
               && (pages.Ok? && fontManager.lockDisposed ==> r == Err(ObjectDisposed))
               && (r.Ok? ==> pages.Ok? && r.value.children == ChildList(Present(pages.value))))
      ensures (var inject := options.None? || options.value.injectImageMetaData;
               && (r.Err? && r.error != ObjectDisposed ==> r.error == Overflow || r.error == IndexOutOfRange)
               && (r.Ok? ==> !fontManager.lockDisposed && (inject ==> !imageManager.lockDisposed))
               && (r.Ok? ==> r.value.blockType == Document && r.value.detail.DocumentDetail? && r.value.uid == docUid)
               && (r.Ok? ==> r.value.detail.fileName == Some(documentName) && r.value.detail.pdfVersion == doc.pdfVersion)
               && (r.Ok? ==> r.value.area == PageArea(doc, ops.length))
               && (r.Ok? ==> forall f :: f in r.value.detail.fonts <==> f in fontManager.byUid.Values)
               && (r.Ok? && inject ==> forall m :: m in r.value.detail.images <==> m in imageManager.imageCache.Values)
               && (r.Ok? && !inject ==> r.value.detail.images == []))
    {
      var strategies := Strategies(options);
      var range := RangeOf(options);
      var start := RangeStart(range, doc.lastPage);
      var end := RangeEnd(range, doc.lastPage);
      var page := p => analyse(p, strategies);
      var pages: Result<seq<Option<DataBlock>>>;
      if options.None? || options.value.asynchronous {
        pages := AsyncPages(start, end, doc.lastPage, page);
      } else {
        pages := AnalyseSequential(start, end, doc.lastPage, page);
      }
      if pages.Err? {
        return Err(pages.error);
      }
      var fonts := fontManager.GetAll();
      if fonts.Err? {
        return Err(fonts.error);
      }
      var images: Option<seq<ImageMeta>> := None;
      if options.None? || options.value.injectImageMetaData {
        var all := imageManager.GetAll();
        if all.Err? {
          return Err(all.error);
        }
        images := Some(all.value);
      }
      var block := NewDocumentBlock(docUid, Some(documentName), PageArea(doc, ops.length),
                                    ChildList(Present(pages.value)), doc.pdfVersion, doc.author,
                                    doc.keywords, doc.producer, doc.subject, doc.title,
                                    Some(fonts.value), images);
      r := Ok(block);
    }

    /**
     * `Dispose(fromFinalizer)` as written: the first call cancels the lifetime
     * token and, outside the finalizer, disposes the font manager twice (both
     * tests name `FontManager`); the image manager is never disposed.
     */
    method DisposeCoreAsWritten(fromFinalizer: bool)
      requires Valid()
      modifies this, fontManager
      ensures Valid()
      ensures disposeCounter == old(disposeCounter) + 1 && cancelled
      ensures old(disposeCounter) == 0 && !fromFinalizer ==>
        && fontManager.lockDisposed == (old(fontManager.lockDisposed) || old(fontManager.disposeCounter) == 0)
        && fontManager.disposeCounter == old(fontManager.disposeCounter) + 2
      ensures old(disposeCounter) > 0 || fromFinalizer ==> unchanged(fontManager)
      ensures fontManager.cache == old(fontManager.cache) && fontManager.byUid == old(fontManager.byUid)
      ensures imageManager.lockDisposed == old(imageManager.lockDisposed)
    {
      disposeCounter := disposeCounter + 1;
      if disposeCounter > 1 {
        return;
      }
      cancelled := true;
      if !fromFinalizer {
        fontManager.Dispose();
        fontManager.Dispose();
      }
    }

    /**
     * `Dispose(fromFinalizer)`: the first call cancels the lifetime token and,
     * outside the finalizer, disposes each manager once.
     */
    method DisposeCore(fromFinalizer: bool)
      requires Valid()
      modifies this, fontManager, imageManager
      ensures Valid()
      ensures disposeCounter == old(disposeCounter) + 1 && cancelled
      ensures old(disposeCounter) == 0 && !fromFinalizer ==>
        && fontManager.lockDisposed == (old(fontManager.lockDisposed) || old(fontManager.disposeCounter) == 0)
        && imageManager.lockDisposed == (old(imageManager.lockDisposed) || old(imageManager.disposeCounter) == 0)
        && fontManager.disposeCounter == old(fontManager.disposeCounter) + 1
        && imageManager.disposeCounter == old(imageManager.disposeCounter) + 1
      ensures old(disposeCounter) > 0 || fromFinalizer ==> unchanged(fontManager) && unchanged(imageManager)
      ensures fontManager.cache == old(fontManager.cache) && fontManager.byUid == old(fontManager.byUid)
      ensures imageManager.imageCache == old(imageManager.imageCache)
    {
      disposeCounter := disposeCounter + 1;
      if disposeCounter > 1 {
        return;
      }
      cancelled := true;
      if !fromFinalizer {
        fontManager.Dispose();
        imageManager.Dispose();
      }
    }

    /** `Dispose`: the first call releases both managers; later calls only count. */
    method Dispose()
      requires Valid()
      modifies this, fontManager, imageManager
      ensures Valid() && cancelled
      ensures disposeCounter == old(disposeCounter) + 1
      ensures old(disposeCounter) == 0 && old(fontManager.disposeCounter) == 0 ==> fontManager.lockDisposed
      ensures old(disposeCounter) == 0 && old(imageManager.disposeCounter) == 0 ==> imageManager.lockDisposed
    {
      DisposeCore(false);
    }
  }
}
