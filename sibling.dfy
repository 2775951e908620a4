/**
 * The sibling strategies (`DataTextBlockSiblingMergeBaseStrategy` and its
 * horizontal and vertical subclasses): repeated forward scans over the text
 * blocks sorted by position, each merging a block with the first compatible
 * later block and re-examining the result.
 *
 * `IFontManager.Get` is read from the font cache's by-Uid map; every
 * `Guid.NewGuid()` takes the next value of a counter.
 */
module Sibling {
  import opened Wrappers
  import opened Text
  import opened Geometry
  import opened Tags
  import opened Blocks
  import opened Seqs
  import opened Order

  /** Which subclass: horizontal, or vertical aligned on the left or the right edge. */
  datatype SiblingKind = Horizontal | Vertical(alignRight: bool)

  /** Blocks and the next unused Uid after a merge. */
  datatype Merged = Merged(blocks: seq<DataBlock>, nextUid: Guid)

  predicate AllTextBlocks(s: seq<DataBlock>)
  {
    forall k :: 0 <= k < |s| ==> s[k].IsTextBlock()
  }

  /** The horizontal gap a text block can account for: its widest glyph plus its spaces. */
  function TextExtent(b: DataBlock, font: FontMeta): (r: real)
    requires b.IsTextual()
    ensures b.Attrs().spaceWidth == 0.0 ==> r == font.maxWidth * b.Attrs().pointValue
    ensures b.Attrs().spaceWidth >= 0.0 ==> r >= font.maxWidth * b.Attrs().pointValue
  {
    font.maxWidth * b.Attrs().pointValue + (Count(b.Attrs().text, ' ') as real) * b.Attrs().spaceWidth
  }

  /** `GetAllowedSpaceBetwenBlocks`. */
  function AllowedSpace(kind: SiblingKind, source: DataBlock, sourceFont: FontMeta,
                        target: DataBlock, targetFont: FontMeta): (r: real)
    requires source.IsTextual() && target.IsTextual()
    ensures kind.Horizontal? ==>
      r == 1.1 * Max(TextExtent(source, sourceFont), TextExtent(target, targetFont))
      && r >= 1.1 * TextExtent(source, sourceFont) && r >= 1.1 * TextExtent(target, targetFont)
    ensures kind.Vertical? ==> r == source.Attrs().lineSize
  {
    match kind
    case Horizontal => Max(TextExtent(source, sourceFont), TextExtent(target, targetFont)) * 1.1
    case Vertical(_) => source.Attrs().lineSize
  }

  /** `GetCompareSourceLign`: the edge along which two blocks must be aligned. */
  function CompareLine(kind: SiblingKind, a: BlockArea): (v: Vector2)
    ensures kind.Horizontal? ==> v == Diff(a.topLeft, a.topRight)
    ensures kind == Vertical(false) ==> v == Diff(a.topLeft, a.bottomLeft)
    ensures kind == Vertical(true) ==> v == Diff(a.topRight, a.bottomRight)
  {
    match kind
    case Horizontal => a.TopLine()
    case Vertical(alignRight) => if alignRight then a.RightLine() else a.LeftLine()
  }

  /** `GetSourceComparePoint`: where the source block ends. */
  function SourcePoint(kind: SiblingKind, a: BlockArea): (p: BlockPoint)
    ensures p in a.GetPoints()
    ensures kind.Horizontal? ==> p == a.topRight
    ensures kind.Vertical? ==> p == (if kind.alignRight then a.bottomRight else a.bottomLeft)
  {
    match kind
    case Horizontal => a.topRight
    case Vertical(alignRight) => if alignRight then a.bottomRight else a.bottomLeft
  }

  /** `GetTargetComparePoint`: where the target block starts. */
  function TargetPoint(kind: SiblingKind, a: BlockArea): (p: BlockPoint)
    ensures p == a.topLeft || p == a.topRight
    ensures kind.Horizontal? ==> p == a.topLeft
    ensures kind.Vertical? ==> p == (if kind.alignRight then a.topRight else a.topLeft)
  {
    match kind
    case Horizontal => a.topLeft
    case Vertical(alignRight) => if alignRight then a.topRight else a.topLeft
  }

  /**
   * `TryMergeSiblingBlock`: the gap from `aSide` to `bSide` is no longer than
   * `tolerance`, and either the gap or the blocks' own edges are aligned.
   */
  predicate TryMergeSiblingBlock(ops: FloatOps, aSide: BlockPoint, bSide: BlockPoint,
                                 aLine: Vector2, bLine: Vector2, alignLine: Vector2, tolerance: real)
  {
    var gap := Diff(aSide, bSide);
    (Abs(ops.radianAngle(alignLine, gap)) <= ops.alignTolerance
       || Abs(ops.radianAngle(aLine, bLine)) <= ops.alignTolerance)
    && ops.length(gap) <= tolerance
  }

  /** `ValidateCanMerge`. */
  predicate ValidateCanMerge(kind: SiblingKind, ops: FloatOps, source: DataBlock, sourceFont: FontMeta,
                             target: DataBlock, targetFont: FontMeta)
    requires source.IsTextual() && target.IsTextual()
  {
    TryMergeSiblingBlock(ops, SourcePoint(kind, source.area), TargetPoint(kind, target.area),
                         CompareLine(kind, source.area), CompareLine(kind, target.area),
                         CompareLine(kind, source.area),
                         AllowedSpace(kind, source, sourceFont, target, targetFont))
  }

  /**
   * The font and scale checks of `TryMerge`: same font size, font name ignoring
   * case, scale, magnitude, line size and font line size.
   */
  predicate SameStyle(current: DataBlock, currentFont: FontMeta, next: DataBlock, nextFont: FontMeta)
    requires current.IsTextual() && next.IsTextual()
  {
    currentFont.fontSize == nextFont.fontSize
    && EqualsIgnoreCase(currentFont.name, nextFont.name)
    && current.Attrs().scale == next.Attrs().scale
    && current.Attrs().magnitude == next.Attrs().magnitude
    && current.Attrs().lineSize == next.Attrs().lineSize
    && currentFont.lineSizePoint == nextFont.lineSizePoint
  }

  /** Whether `TryMerge` merges `next` into `current`. */
  predicate CanMergePair(kind: SiblingKind, ops: FloatOps, current: DataBlock, currentFont: FontMeta,
                         next: DataBlock, nextFont: FontMeta)
    requires current.IsTextual() && next.IsTextual()
    ensures CanMergePair(kind, ops, current, currentFont, next, nextFont) ==>
      && currentFont.fontSize == nextFont.fontSize && EqualsIgnoreCase(currentFont.name, nextFont.name)
      && current.Attrs().scale == next.Attrs().scale && current.Attrs().magnitude == next.Attrs().magnitude
      && current.Attrs().lineSize == next.Attrs().lineSize && currentFont.lineSizePoint == nextFont.lineSizePoint
  {
    SameStyle(current, currentFont, next, nextFont)
    && ValidateCanMerge(kind, ops, current, currentFont, next, nextFont)
  }

  /** `MergeText`: plain concatenation, with a line break between two non-empty texts when vertical. */
  function MergeText(kind: SiblingKind, source: string, target: string): (r: string)
    ensures |r| >= |source| + |target|
    ensures r[..|source|] == source && r[|r| - |target|..] == target
    ensures kind.Horizontal? || source == "" || target == "" ==> r == source + target
    ensures kind.Vertical? && source != "" && target != "" ==> r == source + NewLine + target
  {
    match kind
    case Horizontal => source + target
    case Vertical(_) =>
      if source == "" || target == "" then source + target else source + NewLine + target
  }

  /**
   * The horizontal `MergeArea`: a first-generation box at the source's top-left
   * corner spanning both blocks' horizontal and vertical extents.
   */
  function HorizontalArea(source: BlockArea, target: BlockArea): (r: BlockArea)
    ensures r.topLeft == source.topLeft && r.width >= 0.0 && r.height >= 0.0
  {
    FromBox(source.X(), source.Y(),
            Abs(Max(source.topRight.x, target.topRight.x) - Min(source.topLeft.x, target.topLeft.x)),
            Abs(Max(source.bottomLeft.y, target.bottomLeft.y) - Min(source.topLeft.y, target.topLeft.y)))
  }

  /**
   * When the source lies left of and above the target, the horizontal merge is
   * the bounding box of both: its right edge reaches the rightmost right edge
   * and its bottom edge the lowest bottom edge.
   */
  lemma {:induction false} HorizontalAreaBounds(source: BlockArea, target: BlockArea)
    requires source.topLeft.x <= target.topLeft.x && source.topLeft.y <= target.topLeft.y
    requires source.topLeft.x <= source.topRight.x && source.topLeft.y <= source.bottomLeft.y
    ensures var r := HorizontalArea(source, target);
      && r.topRight.x == Max(source.topRight.x, target.topRight.x)
      && r.bottomLeft.y == Max(source.bottomLeft.y, target.bottomLeft.y)
      && r.bottomRight == BlockPoint(r.topRight.x, r.bottomLeft.y)
  {
    var r := HorizontalArea(source, target);
    assert Min(source.topLeft.x, target.topLeft.x) == source.topLeft.x;
    assert Min(source.topLeft.y, target.topLeft.y) == source.topLeft.y;
  }

  /** The vertical `MergeArea` before alignment: the source's top corners and the target's bottom corners. */
  function VerticalInitialArea(ops: FloatOps, source: BlockArea, target: BlockArea): (r: BlockArea)
    ensures r.GetPoints() == [source.topLeft, source.topRight, target.bottomRight, target.bottomLeft]
    ensures r.TopLine() == source.TopLine() && r.BottomLine() == target.BottomLine()
  {
    FromCorners(source.topLeft, source.topRight, target.bottomRight, target.bottomLeft, ops.length)
  }

  /** `MergeArea` of each subclass. */
  function MergeArea(kind: SiblingKind, ops: FloatOps, source: BlockArea, target: BlockArea): (r: BlockArea)
    ensures kind.Horizontal? ==> r == HorizontalArea(source, target)
    ensures kind.Vertical? ==> r == ops.verticalAdjust(VerticalInitialArea(ops, source, target))
  {
    match kind
    case Horizontal => HorizontalArea(source, target)
    case Vertical(_) => ops.verticalAdjust(VerticalInitialArea(ops, source, target))
  }

  /** Tags have a non-empty raw value (`!string.IsNullOrEmpty(t.Raw)`). */
  predicate HasRaw(t: DataTag)
  {
    t.raw != ""
  }

  /** `MergeTags`: both tag lists, without empty raw values, one tag per class of equal tags. */
  function MergeTags(source: Option<seq<DataTag>>, target: Option<seq<DataTag>>): (r: seq<DataTag>)
    ensures forall t :: t in r ==> HasRaw(t) && (t in OrEmpty(source) || t in OrEmpty(target))
    ensures forall a, b :: 0 <= a < b < |r| ==> !Same(r[a], r[b])
    ensures forall t :: (t in OrEmpty(source) || t in OrEmpty(target)) && HasRaw(t) ==>
      exists k :: 0 <= k < |r| && Same(r[k], t)
    ensures r == Firsts(Filter(OrEmpty(source) + OrEmpty(target), HasRaw), Same)
  {
    var all := OrEmpty(source) + OrEmpty(target);
    var kept := Filter(all, HasRaw);
    var r := DistinctWith(kept, Same);
    SameTransitive();
    DistinctWithIsFirsts(kept, Same);
    forall t | t in all && HasRaw(t) ensures exists k :: 0 <= k < |r| && Same(r[k], t) {
      assert t in kept;
      if t in r {
        var k :| 0 <= k < |r| && r[k] == t;
        SameIsEquivalence(t, t, t);
      }
    }
    r
  }

  /** `MergeChildren`: both child lists, without repeats. */
  function MergeChildren(source: Children, target: Children): (r: seq<DataBlock>)
    ensures forall c :: c in r ==> c in source.Items() || c in target.Items()
    ensures forall c :: c in source.Items() || c in target.Items() ==> c in r
    ensures forall a, b :: 0 <= a < b < |r| ==> r[a] != r[b]
    ensures r == Firsts(source.Items() + target.Items(), Equal)
  {
    Distinct(source.Items() + target.Items())
  }

  /** The text-box ids of a merged block: both lists, without repeats. */
  function MergeTextBoxIds(source: Option<seq<real>>, target: Option<seq<real>>): (r: seq<real>)
    ensures forall x :: x in r ==> x in OrEmpty(source) || x in OrEmpty(target)
    ensures forall x :: x in OrEmpty(source) || x in OrEmpty(target) ==> x in r
    ensures forall a, b :: 0 <= a < b < |r| ==> r[a] != r[b]
    ensures r == Firsts(OrEmpty(source) + OrEmpty(target), Equal)
  {
    Distinct(OrEmpty(source) + OrEmpty(target))
  }

  /**
   * The block replacing a merged pair: a new Uid, the source's font
   * attributes, and the two blocks' texts, areas, text boxes, tags and children combined.
   */
  function MergeBlocks(kind: SiblingKind, ops: FloatOps, source: DataBlock, target: DataBlock,
                       uid: Guid): (r: DataBlock)
    requires source.IsTextual() && target.IsTextual()
    ensures r.IsTextBlock() && r.WellTyped() && r.uid == uid
    ensures var s := source.Attrs(); var m := r.Attrs();
      && m.fontLevel == s.fontLevel && m.pointValue == s.pointValue && m.lineSize == s.lineSize
      && m.scale == s.scale && m.magnitude == s.magnitude && m.fontInfoUid == s.fontInfoUid
      && m.spaceWidth == s.spaceWidth
    ensures r.Attrs().text == MergeText(kind, source.Attrs().text, target.Attrs().text)
    ensures r.area == MergeArea(kind, ops, source.area, target.area)
    ensures r.Attrs().textBoxIds == Some(MergeTextBoxIds(source.Attrs().textBoxIds, target.Attrs().textBoxIds))
    ensures r.tags == Some(MergeTags(source.tags, target.tags))
    ensures r.children == ChildList(MergeChildren(source.children, target.children))
  {
    var s := source.Attrs();
    NewTextBlock(uid, s.fontLevel, s.pointValue, s.lineSize, s.scale, s.magnitude,
                 MergeText(kind, s.text, target.Attrs().text), s.fontInfoUid, s.spaceWidth,
                 MergeArea(kind, ops, source.area, target.area),
                 Some(MergeTextBoxIds(s.textBoxIds, target.Attrs().textBoxIds)),
                 Some(MergeTags(source.tags, target.tags)),
                 ChildList(MergeChildren(source.children, target.children)))
  }

  /**
   * The inner loop of `TryMerge` from index `j` on: the first position after `i`
   * holding a different block that passes every check, or none; a missing
   * font throws as soon as that block is reached.
   */
  function FindPartner(kind: SiblingKind, ops: FloatOps, fonts: map<Guid, FontMeta>,
                       l: seq<DataBlock>, i: nat, currentFont: FontMeta, j: nat): (r: Result<Option<nat>>)
    requires AllTextBlocks(l) && i <= j <= |l| && i < |l|
    ensures r.Ok? && r.value.Some? ==>
      var p := r.value.value;
      && j <= p < |l| && i < p && l[p] != l[i]
      && l[p].Attrs().fontInfoUid in fonts
      && CanMergePair(kind, ops, l[i], currentFont, l[p], fonts[l[p].Attrs().fontInfoUid])
    ensures r.Ok? ==>
      var end := if r.value.Some? then r.value.value else |l|;
      forall k :: j <= k < end && k != i && l[k] != l[i] ==>
        l[k].Attrs().fontInfoUid in fonts
        && !CanMergePair(kind, ops, l[i], currentFont, l[k], fonts[l[k].Attrs().fontInfoUid])
    ensures r.Err? ==> r.error == KeyNotFound
    decreases |l| - j
  {
    if j == |l| then Ok(None)
    else if j == i || l[j] == l[i] then FindPartner(kind, ops, fonts, l, i, currentFont, j + 1)
    else
      match FontGet(fonts, l[j].Attrs().fontInfoUid)
      case Err(e) => Err(e)
      case Ok(nextFont) =>
        if CanMergePair(kind, ops, l[i], currentFont, l[j], nextFont) then Ok(Some(j))
        else FindPartner(kind, ops, fonts, l, i, currentFont, j + 1)
  }

  /**
   * The outer loop of `TryMerge` from position `i` on: the block at `i` absorbs
   * its first partner and is examined again, or the scan moves to `i + 1`.
   */
  function Scan(kind: SiblingKind, ops: FloatOps, fonts: map<Guid, FontMeta>,
                l: seq<DataBlock>, i: nat, uid: Guid): (r: Result<Merged>)
    requires AllTextBlocks(l) && i <= |l|
    ensures r.Ok? ==> AllTextBlocks(r.value.blocks)
    ensures r.Err? ==> r.error == KeyNotFound
    decreases |l|, |l| - i
  {
    if i == |l| then Ok(Merged(l, uid))
    else
      match FontGet(fonts, l[i].Attrs().fontInfoUid)
      case Err(e) => Err(e)
      case Ok(currentFont) =>
        match FindPartner(kind, ops, fonts, l, i, currentFont, i)
        case Err(e) => Err(e)
        case Ok(None) => Scan(kind, ops, fonts, l, i + 1, uid)
        case Ok(Some(j)) =>
          Scan(kind, ops, fonts, MergeAt(kind, ops, l, i, j, uid), i, uid + 1)
  }

  /**
   * What a successful scan from `i` leaves: every merge removes exactly one
   * block and uses exactly one new Uid, the blocks before `i` are untouched,
   * and a non-empty list never becomes empty.
   */
  lemma {:induction false} ScanShape(kind: SiblingKind, ops: FloatOps, fonts: map<Guid, FontMeta>,
                                     l: seq<DataBlock>, i: nat, uid: Guid)
    requires AllTextBlocks(l) && i <= |l|
    requires Scan(kind, ops, fonts, l, i, uid).Ok?
    ensures ScanShaped(l, i, uid, Scan(kind, ops, fonts, l, i, uid).value)
    decreases |l|, |l| - i, 1
  {
    if i < |l| {
      ScanStep(kind, ops, fonts, l, i, uid);
      var cf := fonts[l[i].Attrs().fontInfoUid];
      var p := FindPartner(kind, ops, fonts, l, i, cf, i);
      if p.Ok? && p.value.None? {
        ScanShapeSkip(kind, ops, fonts, l, i, uid);
      } else if p.Ok? {
        ScanShapeMerge(kind, ops, fonts, l, i, p.value.value, uid);
      }
    }
  }

  /** `ScanShape` when the block at `i` has no partner. */
  lemma {:induction false} ScanShapeSkip(kind: SiblingKind, ops: FloatOps, fonts: map<Guid, FontMeta>,
                                         l: seq<DataBlock>, i: nat, uid: Guid)
    requires AllTextBlocks(l) && i < |l|
    requires Scan(kind, ops, fonts, l, i + 1, uid).Ok?
    ensures ScanShaped(l, i, uid, Scan(kind, ops, fonts, l, i + 1, uid).value)
    decreases |l|, |l| - i, 0
  {
    ScanShape(kind, ops, fonts, l, i + 1, uid);
    ShapedSkip(l, i, uid, Scan(kind, ops, fonts, l, i + 1, uid).value);
  }

  /** `ScanShape` when the block at `i` absorbs the block at `j`. */
  lemma {:induction false} ScanShapeMerge(kind: SiblingKind, ops: FloatOps, fonts: map<Guid, FontMeta>,
                                          l: seq<DataBlock>, i: nat, j: nat, uid: Guid)
    requires AllTextBlocks(l) && i < j < |l|
    requires Scan(kind, ops, fonts, MergeAt(kind, ops, l, i, j, uid), i, uid + 1).Ok?
    ensures ScanShaped(l, i, uid, Scan(kind, ops, fonts, MergeAt(kind, ops, l, i, j, uid), i, uid + 1).value)
    decreases |l|, 0, 0
  {
    var l' := MergeAt(kind, ops, l, i, j, uid);
    ScanShape(kind, ops, fonts, l', i, uid + 1);
    ShapedMerge(kind, ops, l, i, j, uid, Scan(kind, ops, fonts, l', i, uid + 1).value);
  }

  /** The list after the block at `i` absorbed the block at `j`. */
  function MergeAt(kind: SiblingKind, ops: FloatOps, l: seq<DataBlock>, i: nat, j: nat, uid: Guid): (r: seq<DataBlock>)
    requires AllTextBlocks(l) && i < j < |l|
    ensures AllTextBlocks(r) && |r| == |l| - 1
    ensures r[..i] == l[..i] && r[i] == MergeBlocks(kind, ops, l[i], l[j], uid)
    ensures r == l[..i] + [MergeBlocks(kind, ops, l[i], l[j], uid)] + l[i + 1..j] + l[j + 1..]
  {
    var merged := MergeBlocks(kind, ops, l[i], l[j], uid);
    ReplaceThenRemove(l, i, j, merged);
    RemoveAt(l[i := merged], j)
  }

  /** Replacing the block at `i` by a text block, then removing the one at `j`, keeps the list textual and its prefix. */
  lemma ReplaceThenRemove(l: seq<DataBlock>, i: nat, j: nat, merged: DataBlock)
    requires AllTextBlocks(l) && i < j < |l| && merged.IsTextBlock()
    ensures var r := RemoveAt(l[i := merged], j);
      AllTextBlocks(r) && |r| == |l| - 1 && r[..i] == l[..i] && r[i] == merged
  {
    var l' := l[i := merged];
    assert AllTextBlocks(l') by {
      forall k | 0 <= k < |l'| ensures l'[k].IsTextBlock() {
        if k != i { assert l'[k] == l[k]; }
      }
    }
    var r := RemoveAt(l', j);
    assert r[..i] == l[..i] by {
      forall k | 0 <= k < i ensures r[k] == l[k] { assert r[k] == l'[k]; }
    }
  }

  /** The shape a scan from `i` over `l` starting with Uid `uid` leaves. */
  ghost predicate ScanShaped(l: seq<DataBlock>, i: nat, uid: Guid, r: Merged)
  {
    && |r.blocks| <= |l|
    && r.nextUid == uid + (|l| - |r.blocks|)
    && i <= |r.blocks|
    && r.blocks[..i] == l[..i]
    && (|l| > 0 ==> |r.blocks| > 0)
  }

  lemma ShapedSkip(l: seq<DataBlock>, i: nat, uid: Guid, r: Merged)
    requires i < |l| && ScanShaped(l, i + 1, uid, r)
    ensures ScanShaped(l, i, uid, r)
  {
    assert r.blocks[..i] == r.blocks[..i + 1][..i];
    assert l[..i] == l[..i + 1][..i];
  }

  lemma ShapedMerge(kind: SiblingKind, ops: FloatOps, l: seq<DataBlock>, i: nat, j: nat, uid: Guid, r: Merged)
    requires AllTextBlocks(l) && i < j < |l|
    requires ScanShaped(MergeAt(kind, ops, l, i, j, uid), i, uid + 1, r)
    ensures ScanShaped(l, i, uid, r)
  {
  }

  /** `TryMerge`: fewer than two blocks are returned as they are, otherwise the sorted blocks are scanned. */
  function TryMergeSpec(kind: SiblingKind, ops: FloatOps, fonts: map<Guid, FontMeta>,
                        texts: seq<DataBlock>, uid: Guid): (r: Result<Merged>)
    requires AllTextBlocks(texts)
    ensures |texts| < 2 ==> r == Ok(Merged(texts, uid))
    ensures r.Ok? ==>
      && AllTextBlocks(r.value.blocks)
      && |r.value.blocks| <= |texts|
      && r.value.nextUid == uid + (|texts| - |r.value.blocks|)
      && (|texts| > 0 ==> |r.value.blocks| > 0)
  {
    if |texts| < 2 then Ok(Merged(texts, uid))
    else
      var sorted := SortByPosition(texts);
      assert AllTextBlocks(sorted) by {
        forall k | 0 <= k < |sorted| ensures sorted[k].IsTextBlock() {
          assert sorted[k] in multiset(texts);
        }
      }
      ScanShapeFromStart(kind, ops, fonts, sorted, uid);
      Scan(kind, ops, fonts, sorted, 0, uid)
  }

  lemma ScanShapeFromStart(kind: SiblingKind, ops: FloatOps, fonts: map<Guid, FontMeta>,
                           l: seq<DataBlock>, uid: Guid)
    requires AllTextBlocks(l)
    ensures var r := Scan(kind, ops, fonts, l, 0, uid);
      r.Ok? ==>
      && |r.value.blocks| <= |l|
      && r.value.nextUid == uid + (|l| - |r.value.blocks|)
      && (|l| > 0 ==> |r.value.blocks| > 0)
  {
    if Scan(kind, ops, fonts, l, 0, uid).Ok? {
      ScanShape(kind, ops, fonts, l, 0, uid);
    }
  }

  /**
   * The passes of `Merge`: another pass follows only while the previous one
   * shrank the list and the pass budget is not spent.
   */
  function Passes(kind: SiblingKind, ops: FloatOps, fonts: map<Guid, FontMeta>,
                  texts: seq<DataBlock>, counter: int, uid: Guid): (r: Result<Merged>)
    requires AllTextBlocks(texts)
    ensures r.Ok? ==>
      && AllTextBlocks(r.value.blocks)
      && |r.value.blocks| <= |texts|
      && r.value.nextUid == uid + (|texts| - |r.value.blocks|)
      && (|texts| > 0 ==> |r.value.blocks| > 0)
    decreases |texts|
  {
    match TryMergeSpec(kind, ops, fonts, texts, uid)
    case Err(e) => Err(e)
    case Ok(m) =>
      if |texts| > |m.blocks| && counter - 1 > 0 then Passes(kind, ops, fonts, m.blocks, counter - 1, m.nextUid)
      else Ok(m)
  }

  /** The typed `Merge` of a sibling strategy with pass budget `maxMergeCount`. */
  function SiblingMerge(kind: SiblingKind, ops: FloatOps, fonts: map<Guid, FontMeta>, maxMergeCount: int,
                        texts: seq<DataBlock>, uid: Guid): (r: Result<Merged>)
    requires AllTextBlocks(texts)
    ensures r.Ok? ==>
      && AllTextBlocks(r.value.blocks)
      && |r.value.blocks| <= |texts|
      && r.value.nextUid == uid + (|texts| - |r.value.blocks|)
      && (|texts| > 0 ==> |r.value.blocks| > 0)
  {
    Passes(kind, ops, fonts, texts, maxMergeCount, uid)
  }

  /** The pass budget of the strategies' constructor. */
  const DefaultMaxMergeCount: int := 5000

  /** One step of the inner loop that moves on to the next position. */
  lemma PartnerSkip(kind: SiblingKind, ops: FloatOps, fonts: map<Guid, FontMeta>,
                    l: seq<DataBlock>, i: nat, currentFont: FontMeta, j: nat)
    requires AllTextBlocks(l) && i <= j < |l|
    requires j == i || l[j] == l[i]
      || (l[j].Attrs().fontInfoUid in fonts
          && !CanMergePair(kind, ops, l[i], currentFont, l[j], fonts[l[j].Attrs().fontInfoUid]))
    ensures FindPartner(kind, ops, fonts, l, i, currentFont, j) == FindPartner(kind, ops, fonts, l, i, currentFont, j + 1)
  {
  }

  /** One step of the inner loop that finds the partner or meets a missing font. */
  lemma PartnerStop(kind: SiblingKind, ops: FloatOps, fonts: map<Guid, FontMeta>,
                    l: seq<DataBlock>, i: nat, currentFont: FontMeta, j: nat)
    requires AllTextBlocks(l) && i < j < |l| && l[j] != l[i]
    ensures l[j].Attrs().fontInfoUid !in fonts ==>
      FindPartner(kind, ops, fonts, l, i, currentFont, j) == Err(KeyNotFound)
    ensures (l[j].Attrs().fontInfoUid in fonts
      && CanMergePair(kind, ops, l[i], currentFont, l[j], fonts[l[j].Attrs().fontInfoUid])) ==>
      FindPartner(kind, ops, fonts, l, i, currentFont, j) == Ok(Some(j))
  {
  }

  /** One step of the outer loop. */
  lemma ScanStep(kind: SiblingKind, ops: FloatOps, fonts: map<Guid, FontMeta>,
                 l: seq<DataBlock>, i: nat, uid: Guid)
    requires AllTextBlocks(l) && i < |l|
    ensures l[i].Attrs().fontInfoUid !in fonts ==> Scan(kind, ops, fonts, l, i, uid) == Err(KeyNotFound)
    ensures l[i].Attrs().fontInfoUid in fonts ==>
      var cf := fonts[l[i].Attrs().fontInfoUid];
      match FindPartner(kind, ops, fonts, l, i, cf, i)
      case Err(e) => Scan(kind, ops, fonts, l, i, uid) == Err(e)
      case Ok(None) => Scan(kind, ops, fonts, l, i, uid) == Scan(kind, ops, fonts, l, i + 1, uid)
      case Ok(Some(j)) =>
        i < j && Scan(kind, ops, fonts, l, i, uid) == Scan(kind, ops, fonts, MergeAt(kind, ops, l, i, j, uid), i, uid + 1)
  {
  }

  /** The inner loop of `TryMerge`: the index of the first partner of the block at `i`, if any. */
  method SeekPartner(kind: SiblingKind, ops: FloatOps, fonts: map<Guid, FontMeta>,
                     l: seq<DataBlock>, i: nat, currentFont: FontMeta) returns (r: Result<Option<nat>>)
    requires AllTextBlocks(l) && i < |l|
    ensures r == FindPartner(kind, ops, fonts, l, i, currentFont, i)
  {
    var current := l[i];
    var nextIndx := i;
    while nextIndx < |l|
      invariant i <= nextIndx <= |l|
      invariant FindPartner(kind, ops, fonts, l, i, currentFont, nextIndx) == FindPartner(kind, ops, fonts, l, i, currentFont, i)
      decreases |l| - nextIndx
    {
      if nextIndx != i && l[nextIndx] != current {
        var nextBlock := l[nextIndx];
        PartnerStop(kind, ops, fonts, l, i, currentFont, nextIndx);
        var nextFont := FontGet(fonts, nextBlock.Attrs().fontInfoUid);
        if nextFont.Err? {
          return Err(nextFont.error);
        }
        if CanMergePair(kind, ops, current, currentFont, nextBlock, nextFont.value) {
          return Ok(Some(nextIndx));
        }
      }
      PartnerSkip(kind, ops, fonts, l, i, currentFont, nextIndx);
      nextIndx := nextIndx + 1;
    }
    return Ok(None);
  }

  /** `TryMerge`, over a local list that is updated in place. */
  method TryMerge(kind: SiblingKind, ops: FloatOps, fonts: map<Guid, FontMeta>,
                  texts: seq<DataBlock>, uid: Guid) returns (r: Result<Merged>)
    requires AllTextBlocks(texts)
    ensures r == TryMergeSpec(kind, ops, fonts, texts, uid)
  {
    if |texts| < 2 {
      return Ok(Merged(texts, uid));
    }
    var localCollection := SortByPosition(texts);
    ghost var sorted := localCollection;
    assert AllTextBlocks(localCollection) by {
      forall k | 0 <= k < |sorted| ensures sorted[k].IsTextBlock() {
        assert sorted[k] in multiset(texts);
      }
    }
    var next := uid;
    var i: nat := 0;
    while i < |localCollection|
      invariant i <= |localCollection|
      invariant AllTextBlocks(localCollection)
      invariant Scan(kind, ops, fonts, localCollection, i, next) == Scan(kind, ops, fonts, sorted, 0, uid)
      decreases |localCollection|, |localCollection| - i
    {
      var current := localCollection[i];
      ScanStep(kind, ops, fonts, localCollection, i, next);
      var currentFont := FontGet(fonts, current.Attrs().fontInfoUid);
      if currentFont.Err? {
        return Err(currentFont.error);
      }
      var partner := SeekPartner(kind, ops, fonts, localCollection, i, currentFont.value);
      match partner {
        case Err(e) =>
          return Err(e);
        case Ok(None) =>
          i := i + 1;
        case Ok(Some(j)) =>
          localCollection := MergeAt(kind, ops, localCollection, i, j, next);
          next := next + 1;
      }
    }
    return Ok(Merged(localCollection, next));
  }

  /** The number of passes `Merge` makes: at least one, at most the budget (or one when the budget is not positive). */
  function PassCount(kind: SiblingKind, ops: FloatOps, fonts: map<Guid, FontMeta>,
                     texts: seq<DataBlock>, counter: int, uid: Guid): (n: nat)
    requires AllTextBlocks(texts)
    ensures 1 <= n && n <= (if counter > 1 then counter else 1)
    ensures n <= (if |texts| > 1 then |texts| else 1)
    decreases |texts|
  {
    match TryMergeSpec(kind, ops, fonts, texts, uid)
    case Err(_) => 1
    case Ok(m) =>
      if |texts| > |m.blocks| && counter - 1 > 0 then 1 + PassCount(kind, ops, fonts, m.blocks, counter - 1, m.nextUid)
      else 1
  }

  /**
   * `Merge`: passes of `TryMerge` repeated while the previous one shrank the
   * list and the pass budget `maxMergeCount` is not spent.
   */
  method Merge(kind: SiblingKind, ops: FloatOps, fonts: map<Guid, FontMeta>, maxMergeCount: int,
               blocks: seq<DataBlock>, uid: Guid) returns (r: Result<Merged>)
    requires AllTextBlocks(blocks)
    ensures r == SiblingMerge(kind, ops, fonts, maxMergeCount, blocks, uid)
  {
    var texts := blocks;
    var next := uid;
    var preventInfinitLoopCounter := maxMergeCount;
    var needMoreMerge := true;
    while needMoreMerge
      invariant AllTextBlocks(texts)
      invariant needMoreMerge ==>
        Passes(kind, ops, fonts, texts, preventInfinitLoopCounter, next) == SiblingMerge(kind, ops, fonts, maxMergeCount, blocks, uid)
      invariant !needMoreMerge ==> Ok(Merged(texts, next)) == SiblingMerge(kind, ops, fonts, maxMergeCount, blocks, uid)
      decreases |texts|, if needMoreMerge then 1 else 0
    {
      needMoreMerge := false;
      var remains := TryMerge(kind, ops, fonts, texts, next);
      if remains.Err? {
        return Err(remains.error);
      }
      assert |remains.value.blocks| <= |texts|;
      if |texts| > |remains.value.blocks| {
        needMoreMerge := true;
      }
      texts := remains.value.blocks;
      next := remains.value.nextUid;
      preventInfinitLoopCounter := preventInfinitLoopCounter - 1;
      needMoreMerge := needMoreMerge && preventInfinitLoopCounter > 0;
    }
    return Ok(Merged(texts, next));
  }
}
