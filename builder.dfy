/**
 * `DataBlockBuilder`: one text scope of a page. It collects the blocks drawn
 * inside it and the scopes opened inside it, and consolidates them bottom-up
 * through the merge pipeline.
 *
 * Builders are numbered in the order they are created (the ghost `stamp`): a
 * scope is always created after its parent, so the numbers grow downwards in
 * the tree and give the recursion of `Consolidate` its measure.
 */
module Builder {
  import opened Wrappers
  import opened Geometry
  import opened Tags
  import opened Blocks
  import opened Seqs
  import opened Sibling
  import opened Pipeline

  /**
   * `AnalyzeTags` turns the canvas tags into data tags (iText work, not
   * modelled: `found` is its list before the final step) and ends with
   * `Distinct()` under the tags' own equality.
   */
  function AnalyzeTags(found: seq<DataTag>): (r: seq<DataTag>)
    ensures |r| <= |found|
    ensures forall a, b :: 0 <= a < b < |r| ==> !Same(r[a], r[b])
    ensures forall t :: t in r ==> t in found
    ensures forall t :: t in found ==> t in r || exists k :: 0 <= k < |r| && Same(r[k], t)
    ensures r == Firsts(found, Same)
  {
    SameTransitive();
    DistinctWithIsFirsts(found, Same);
    DistinctWith(found, Same)
  }

  class DataBlockBuilder {
    /** `Parent`, fixed at construction. */
    const parent: Option<DataBlockBuilder>
    /** The creation number of this builder. */
    ghost const stamp: nat
    /** `_children`: the scopes opened inside this one, in order. */
    var children: seq<DataBlockBuilder>
    /** `_dataBlocks`: the blocks drawn in this scope, in order. */
    var dataBlocks: seq<DataBlock>

    /** A new scope, appended to its parent's children. */
    constructor (parent: Option<DataBlockBuilder>, ghost stamp: nat)
      modifies if parent.Some? then {parent.value} else {}
      ensures this.parent == parent && this.stamp == stamp
      ensures children == [] && dataBlocks == []
      ensures parent.Some? ==>
        && parent.value.children == old(parent.value.children) + [this]
        && parent.value.dataBlocks == old(parent.value.dataBlocks)
    {
      this.parent := parent;
      this.stamp := stamp;
      dataBlocks := [];
      children := [];
      new;
      if parent.Some? {
        parent.value.children := parent.value.children + [this];
      }
    }

    /**
     * `AddTextData`: one text block appended, with a new Uid, the scale as a
     * fraction (`xScale / 100`), the font's Uid, the one text-box id and no
     * children.
     */
    method AddTextData(uid: Guid, fontSize: real, pointValue: real, fontInfo: FontMeta, spaceWidth: real,
                       lineSize: real, xScale: real, magnitude: real, area: BlockArea, text: string,
                       textBoxId: real, tags: seq<DataTag>)
      modifies this
      ensures dataBlocks == old(dataBlocks) + [NewTextBlock(uid, fontSize, pointValue, lineSize, xScale / 100.0,
                                                            magnitude, text, fontInfo.uid, spaceWidth, area,
                                                            Some([textBoxId]), Some(AnalyzeTags(tags)), NullChildren)]
      ensures children == old(children)
      ensures var b := dataBlocks[|dataBlocks| - 1];
        && b.IsTextBlock() && b.Attrs().scale * 100.0 == xScale
        && b.Attrs().fontInfoUid == fontInfo.uid && b.Attrs().textBoxIds == Some([textBoxId])
        && b.children == NullChildren
    {
      dataBlocks := dataBlocks + [NewTextBlock(uid, fontSize, pointValue, lineSize, xScale / 100.0,
                                               magnitude, text, fontInfo.uid, spaceWidth, area,
                                               Some([textBoxId]), Some(AnalyzeTags(tags)), NullChildren)];
    }

    /** `AddImageData`: one image block appended, named `""` when the PDF gives no name. */
    method AddImageData(uid: Guid, imgName: Option<string>, image: Option<ImageMeta>, area: BlockArea,
                        tags: seq<DataTag>)
      modifies this
      ensures |dataBlocks| == |old(dataBlocks)| + 1 && dataBlocks[..|old(dataBlocks)|] == old(dataBlocks)
      ensures children == old(children)
      ensures var b := dataBlocks[|dataBlocks| - 1];
        && b == NewImageBlock(uid, if imgName.Some? then imgName.value else "",
                              if image.Some? then Some(image.value.uid) else None,
                              area, AnalyzeTags(tags), NullChildren)
        && (imgName.None? ==> b.detail.name == "")
        && (image.None? ==> b.detail.imageResourceUid.None?)
    {
      var name := if imgName.Some? then imgName.value else "";
      var resource := if image.Some? then Some(image.value.uid) else None;
      dataBlocks := dataBlocks + [NewImageBlock(uid, name, resource, area, AnalyzeTags(tags), NullChildren)];
    }

    /**
     * `Consolidate`: this scope's blocks, then each child scope's consolidated
     * blocks in child order, through the merge pipeline once.
     */
    method Consolidate(strategies: seq<Strategy>, uid: Guid, ghost all: set<DataBlockBuilder>, ghost limit: nat)
      returns (r: Result<Merged>)
      requires this in all && Ranked(all, limit)
      ensures r == ConsolidateSpec(this, all, limit, strategies, uid)
      decreases limit - stamp, 1
    {
      var gathered := GatherChildren(strategies, uid, all, limit);
      if gathered.Err? {
        return Err(gathered.error);
      }
      var childrenBlocks := dataBlocks + gathered.value.blocks;
      r := Apply(strategies, Some(childrenBlocks), gathered.value.nextUid);
    }

    /** The loop of `Consolidate`: each child scope consolidated in turn, its blocks appended. */
    method GatherChildren(strategies: seq<Strategy>, uid: Guid, ghost all: set<DataBlockBuilder>, ghost limit: nat)
      returns (r: Result<Merged>)
      requires this in all && Ranked(all, limit)
      ensures r == Gathered(this, |children|, all, limit, strategies, uid)
      decreases limit - stamp, 0
    {
      var gathered: seq<DataBlock> := [];
      var next := uid;
      var k := 0;
      while k < |children|
        invariant 0 <= k <= |children|
        invariant Gathered(this, k, all, limit, strategies, uid) == Ok(Merged(gathered, next))
      {
        var child := children[k];
        ChildRanked(this, k, all, limit);
        var childResults := child.Consolidate(strategies, next, all, limit);
        GatherChild(this, k, all, limit, strategies, uid, gathered, next, childResults);
        if childResults.Err? {
          GatheredErr(this, k + 1, |children|, all, limit, strategies, uid);
          return Err(childResults.error);
        }
        gathered := gathered + childResults.value.blocks;
        next := childResults.value.nextUid;
        k := k + 1;
      }
      r := Ok(Merged(gathered, next));
    }
  }

  /**
   * The builders in `all` form a forest numbered top-down: children and
   * parents stay in the set, every child is numbered after its parent, and
   * every number is below `limit`.
   */
  ghost predicate Ranked(all: set<DataBlockBuilder>, limit: nat)
    reads all`children
  {
    forall x :: x in all ==>
      && x.stamp < limit
      && (x.parent.Some? ==> x.parent.value in all && x.parent.value.stamp < x.stamp)
      && (forall c :: c in x.children ==> c in all && x.stamp < c.stamp)
  }

  /** What `Consolidate` returns for builder `b`. */
  ghost function ConsolidateSpec(b: DataBlockBuilder, all: set<DataBlockBuilder>, limit: nat,
                                 strategies: seq<Strategy>, uid: Guid): Result<Merged>
    requires b in all && Ranked(all, limit)
    reads all
    decreases limit - b.stamp, 1, 0
  {
    match Gathered(b, |b.children|, all, limit, strategies, uid)
    case Err(e) => Err(e)
    case Ok(m) => ApplySpec(strategies, Some(b.dataBlocks + m.blocks), m.nextUid)
  }

  /** The consolidated blocks of the first `i` children of `b`, concatenated. */
  ghost function Gathered(b: DataBlockBuilder, i: nat, all: set<DataBlockBuilder>, limit: nat,
                          strategies: seq<Strategy>, uid: Guid): Result<Merged>
    requires b in all && Ranked(all, limit) && i <= |b.children|
    reads all
    decreases limit - b.stamp, 0, i
  {
    if i == 0 then Ok(Merged([], uid))
    else
      match Gathered(b, i - 1, all, limit, strategies, uid)
      case Err(e) => Err(e)
      case Ok(m) =>
        assert b.children[i - 1] in b.children;
        match ConsolidateSpec(b.children[i - 1], all, limit, strategies, m.nextUid)
        case Err(e) => Err(e)
        case Ok(c) => Ok(Merged(m.blocks + c.blocks, c.nextUid))
  }

  /** One more child gathered. */
  lemma GatheredStep(b: DataBlockBuilder, k: nat, all: set<DataBlockBuilder>, limit: nat,
                     strategies: seq<Strategy>, uid: Guid)
    requires b in all && Ranked(all, limit) && k < |b.children|
    requires Gathered(b, k, all, limit, strategies, uid).Ok?
    ensures b.children[k] in all && b.stamp < b.children[k].stamp < limit
    ensures var m := Gathered(b, k, all, limit, strategies, uid).value;
      Gathered(b, k + 1, all, limit, strategies, uid)
      == match ConsolidateSpec(b.children[k], all, limit, strategies, m.nextUid)
         case Err(e) => Err(e)
         case Ok(c) => Ok(Merged(m.blocks + c.blocks, c.nextUid))
  {
    assert b.children[k] in b.children;
  }

  /** A child of a ranked builder is ranked below it. */
  lemma ChildRanked(b: DataBlockBuilder, k: nat, all: set<DataBlockBuilder>, limit: nat)
    requires b in all && Ranked(all, limit) && k < |b.children|
    ensures b.children[k] in all && b.stamp < b.children[k].stamp < limit
  {
    assert b.children[k] in b.children;
  }

  /** The outcome of consolidating child `k`: the scope's exception, or one more child gathered. */
  lemma GatherChild(b: DataBlockBuilder, k: nat, all: set<DataBlockBuilder>, limit: nat,
                    strategies: seq<Strategy>, uid: Guid, gathered: seq<DataBlock>, next: Guid, c: Result<Merged>)
    requires b in all && Ranked(all, limit) && k < |b.children|
    requires Gathered(b, k, all, limit, strategies, uid) == Ok(Merged(gathered, next))
    requires b.children[k] in all && c == ConsolidateSpec(b.children[k], all, limit, strategies, next)
    ensures c.Err? ==> Gathered(b, k + 1, all, limit, strategies, uid) == Err(c.error)
    ensures c.Ok? ==> Gathered(b, k + 1, all, limit, strategies, uid) == Ok(Merged(gathered + c.value.blocks, c.value.nextUid))
  {
    GatheredStep(b, k, all, limit, strategies, uid);
  }

  /** A child's exception ends the gathering: every later prefix fails the same way. */
  lemma {:induction false} GatheredErr(b: DataBlockBuilder, i: nat, j: nat, all: set<DataBlockBuilder>, limit: nat,
                                       strategies: seq<Strategy>, uid: Guid)
    requires b in all && Ranked(all, limit) && i <= j <= |b.children|
    requires Gathered(b, i, all, limit, strategies, uid).Err?
    ensures Gathered(b, j, all, limit, strategies, uid) == Gathered(b, i, all, limit, strategies, uid)
    decreases j
  {
    if j > i {
      GatheredErr(b, i, j - 1, all, limit, strategies, uid);
    }
  }

  /** Every block of the scope tree under `b`: its own blocks, then each child's, in child order. */
  ghost function Collected(b: DataBlockBuilder, all: set<DataBlockBuilder>, limit: nat): seq<DataBlock>
    requires b in all && Ranked(all, limit)
    reads all
    decreases limit - b.stamp, 1, 0
  {
    b.dataBlocks + CollectedKids(b, |b.children|, all, limit)
  }

  /** The blocks under the first `i` children of `b`. */
  ghost function CollectedKids(b: DataBlockBuilder, i: nat, all: set<DataBlockBuilder>, limit: nat): seq<DataBlock>
    requires b in all && Ranked(all, limit) && i <= |b.children|
    reads all
    decreases limit - b.stamp, 0, i
  {
    if i == 0 then []
    else
      assert b.children[i - 1] in b.children;
      CollectedKids(b, i - 1, all, limit) + Collected(b.children[i - 1], all, limit)
  }

  /**
   * With no strategy, consolidation is the plain pre-order collection of the
   * scope tree's blocks, and no Uid is used.
   */
  lemma {:induction false} NoStrategyCollects(b: DataBlockBuilder, all: set<DataBlockBuilder>, limit: nat, uid: Guid)
    requires b in all && Ranked(all, limit)
    ensures ConsolidateSpec(b, all, limit, [], uid) == Ok(Merged(Collected(b, all, limit), uid))
    decreases limit - b.stamp, 1, 0
  {
    NoStrategyCollectsKids(b, |b.children|, all, limit, uid);
  }

  /** The children part of `NoStrategyCollects`. */
  lemma {:induction false} NoStrategyCollectsKids(b: DataBlockBuilder, i: nat, all: set<DataBlockBuilder>,
                                                  limit: nat, uid: Guid)
    requires b in all && Ranked(all, limit) && i <= |b.children|
    ensures Gathered(b, i, all, limit, [], uid) == Ok(Merged(CollectedKids(b, i, all, limit), uid))
    decreases limit - b.stamp, 0, i
  {
    if i > 0 {
      assert b.children[i - 1] in b.children;
      NoStrategyCollectsKids(b, i - 1, all, limit, uid);
      NoStrategyCollects(b.children[i - 1], all, limit, uid);
    }
  }

  /**
   * When every strategy is narrowed and merges to its own input,
   * consolidation returns a permutation of all the blocks of the scope tree.
   */
  lemma {:induction false} IdentityConsolidates(b: DataBlockBuilder, all: set<DataBlockBuilder>, limit: nat,
                                                strategies: seq<Strategy>, uid: Guid)
    requires b in all && Ranked(all, limit)
    requires forall k :: 0 <= k < |strategies| ==> Narrowed(strategies[k]) && Identity(strategies[k])
    ensures ConsolidateSpec(b, all, limit, strategies, uid).Ok?
    ensures multiset(ConsolidateSpec(b, all, limit, strategies, uid).value.blocks) == multiset(Collected(b, all, limit))
    ensures ConsolidateSpec(b, all, limit, strategies, uid).value.nextUid == uid
    decreases limit - b.stamp, 1, 0
  {
    IdentityConsolidatesKids(b, |b.children|, all, limit, strategies, uid);
    var m := Gathered(b, |b.children|, all, limit, strategies, uid).value;
    var input := b.dataBlocks + m.blocks;
    if input != [] {
      IdentityPermutes(strategies, input, m.nextUid);
    }
  }

  /** The children part of `IdentityConsolidates`. */
  lemma {:induction false} IdentityConsolidatesKids(b: DataBlockBuilder, i: nat, all: set<DataBlockBuilder>,
                                                    limit: nat, strategies: seq<Strategy>, uid: Guid)
    requires b in all && Ranked(all, limit) && i <= |b.children|
    requires forall k :: 0 <= k < |strategies| ==> Narrowed(strategies[k]) && Identity(strategies[k])
    ensures Gathered(b, i, all, limit, strategies, uid).Ok?
    ensures multiset(Gathered(b, i, all, limit, strategies, uid).value.blocks) == multiset(CollectedKids(b, i, all, limit))
    ensures Gathered(b, i, all, limit, strategies, uid).value.nextUid == uid
    decreases limit - b.stamp, 0, i
  {
    if i > 0 {
      assert b.children[i - 1] in b.children;
      IdentityConsolidatesKids(b, i - 1, all, limit, strategies, uid);
      IdentityConsolidates(b.children[i - 1], all, limit, strategies, uid);
    }
  }
}
