/**
 * The merge pipeline: `IDataBlockMergeStrategy`, the forwarding base class
 * `DataBlockMergeBaseStrategy<TBlockType>` and `MergeStrategyExtension.Apply`,
 * which hands each strategy in turn the blocks it manages and puts the
 * strategy's output back after the blocks it left alone.
 *
 * A strategy's typed `Merge` takes the next unused Uid and returns the next
 * unused Uid after it, so that `Guid.NewGuid()` stays a counter.
 */
module Pipeline {
  import opened Wrappers
  import opened Blocks
  import opened Sibling
  import opened Seqs

  /**
   * A merge strategy: the type test of its `TBlockType` (`accepts`), its
   * ownership predicate `IsDataBlockManaged` (virtual, `accepts` unless a
   * subclass narrows it) and its typed `Merge`.
   */
  datatype Strategy = Strategy(
    accepts: DataBlock -> bool,
    managed: DataBlock -> bool,
    merge: (seq<DataBlock>, Guid) -> Result<Merged>)

  /** The ownership predicate only claims blocks the typed `Merge` can be cast to. */
  ghost predicate Narrowed(st: Strategy)
  {
    forall b :: st.managed(b) ==> st.accepts(b)
  }

  /** `block.GetType().IsAssignableTo(typeof(DataTextBlock))`. */
  predicate IsDataTextBlock(b: DataBlock)
  {
    b.IsTextBlock()
  }

  /** `block.GetType().IsAssignableTo(typeof(IDataTextBlock))`. */
  predicate IsIDataTextBlock(b: DataBlock)
  {
    b.IsTextual()
  }

  /** A `DataTextBlock` is an `IDataTextBlock`, and so is a relation group; no other block is. */
  lemma TextualTypes(b: DataBlock)
    ensures IsDataTextBlock(b) ==> IsIDataTextBlock(b)
    ensures IsIDataTextBlock(b) <==> b.detail.TextDetail? || b.detail.GroupDetail?
  {
  }

  /**
   * The public `Merge(IEnumerable<DataBlock>)`: the blocks cast to
   * `TBlockType` and passed on; a block of another type fails the cast.
   */
  function PublicMerge(st: Strategy, blocks: seq<DataBlock>, uid: Guid): (r: Result<Merged>)
    ensures (exists k :: 0 <= k < |blocks| && !st.accepts(blocks[k])) ==> r == Err(InvalidCast)
    ensures (forall k :: 0 <= k < |blocks| ==> st.accepts(blocks[k])) ==> r == st.merge(blocks, uid)
  {
    if exists k :: 0 <= k < |blocks| && !st.accepts(blocks[k]) then Err(InvalidCast)
    else st.merge(blocks, uid)
  }

  /** The blocks of `l` whose `p` is `want`, in their order in `l`. */
  function Where(l: seq<DataBlock>, p: DataBlock -> bool, want: bool): (r: seq<DataBlock>)
    ensures |r| <= |l|
    ensures forall k :: 0 <= k < |r| ==> p(r[k]) == want
    decreases |l|
  {
    if l == [] then []
    else
      var init := Where(l[..|l| - 1], p, want);
      if p(l[|l| - 1]) == want then init + [l[|l| - 1]] else init
  }

  /** The selection is `Where` with the ownership test: the wanted blocks, with their repeats, in their order in `l`. */
  lemma {:induction false} WhereIsFilter(l: seq<DataBlock>, p: DataBlock -> bool, want: bool)
    ensures Where(l, p, want) == Filter(l, b => p(b) == want)
    decreases |l|
  {
    if l != [] {
      var init, x := l[..|l| - 1], l[|l| - 1];
      WhereIsFilter(init, p, want);
      assert l == init + [x];
      FilterAppend(init, [x], b => p(b) == want);
      FilterOne(x, b => p(b) == want);
    }
  }

  /** Splitting by ownership loses and invents no block. */
  lemma {:induction false} PartitionConserves(l: seq<DataBlock>, p: DataBlock -> bool)
    ensures multiset(Where(l, p, true)) + multiset(Where(l, p, false)) == multiset(l)
    ensures |Where(l, p, true)| + |Where(l, p, false)| == |l|
    decreases |l|
  {
    if l != [] {
      var init, x := l[..|l| - 1], l[|l| - 1];
      PartitionConserves(init, p);
      assert l == init + [x];
      assert multiset(l) == multiset(init) + multiset{x};
    }
  }

  /** A list whose every block has `p` equal to `want` is selected whole, and nothing of it is selected otherwise. */
  lemma {:induction false} WhereAll(l: seq<DataBlock>, p: DataBlock -> bool, want: bool)
    requires forall k :: 0 <= k < |l| ==> p(l[k]) == want
    ensures Where(l, p, want) == l
    ensures Where(l, p, !want) == []
    decreases |l|
  {
    if l != [] {
      WhereAll(l[..|l| - 1], p, want);
      assert l == l[..|l| - 1] + [l[|l| - 1]];
    }
  }

  /**
   * One strategy: its managed blocks go to its public `Merge`, and its output
   * is appended after the unmanaged blocks, which keep their order.
   */
  function ApplyOne(st: Strategy, l: seq<DataBlock>, uid: Guid): (r: Result<Merged>)
    ensures r.Ok? ==> PublicMerge(st, Where(l, st.managed, true), uid).Ok?
    ensures r.Ok? ==>
      var m := PublicMerge(st, Where(l, st.managed, true), uid).value;
      && |r.value.blocks| == |l| - |Where(l, st.managed, true)| + |m.blocks|
      && r.value.blocks == Where(l, st.managed, false) + m.blocks
      && r.value.nextUid == m.nextUid
    ensures r.Err? ==>
      var m := PublicMerge(st, Where(l, st.managed, true), uid);
      m.Err? && r.error == m.error
  {
    PartitionConserves(l, st.managed);
    match PublicMerge(st, Where(l, st.managed, true), uid)
    case Err(e) => Err(e)
    case Ok(m) => Ok(Merged(Where(l, st.managed, false) + m.blocks, m.nextUid))
  }

  /** Every strategy once, in the declared order, each on the previous one's output. */
  function ApplyFrom(strategies: seq<Strategy>, l: seq<DataBlock>, uid: Guid): (r: Result<Merged>)
    decreases |strategies|
  {
    if strategies == [] then Ok(Merged(l, uid))
    else
      match ApplyOne(strategies[0], l, uid)
      case Err(e) => Err(e)
      case Ok(m) => ApplyFrom(strategies[1..], m.blocks, m.nextUid)
  }

  /** `Apply`: a null or empty input gives an empty result. */
  function ApplySpec(strategies: seq<Strategy>, children: Option<seq<DataBlock>>, uid: Guid): (r: Result<Merged>)
    ensures children.None? || children.value == [] ==> r == Ok(Merged([], uid))
    ensures strategies == [] ==> r == Ok(Merged(OrEmpty(children), uid))
  {
    if children.None? || children.value == [] then Ok(Merged([], uid))
    else ApplyFrom(strategies, children.value, uid)
  }

  /** Running two lists of strategies is running the first, then the second on its output. */
  lemma {:induction false} ApplyCompose(s1: seq<Strategy>, s2: seq<Strategy>, l: seq<DataBlock>, uid: Guid)
    ensures ApplyFrom(s1 + s2, l, uid)
      == match ApplyFrom(s1, l, uid)
         case Err(e) => Err(e)
         case Ok(m) => ApplyFrom(s2, m.blocks, m.nextUid)
    decreases |s1|
  {
    if s1 == [] {
      assert s1 + s2 == s2;
    } else {
      assert (s1 + s2)[0] == s1[0] && (s1 + s2)[1..] == s1[1..] + s2;
      match ApplyOne(s1[0], l, uid)
      case Err(e) =>
      case Ok(m) => ApplyCompose(s1[1..], s2, m.blocks, m.nextUid);
    }
  }

  /** A strategy whose ownership predicate is narrowed never fails the cast in the pipeline. */
  lemma NoCastFailure(st: Strategy, l: seq<DataBlock>, uid: Guid)
    requires Narrowed(st)
    ensures ApplyOne(st, l, uid) == match st.merge(Where(l, st.managed, true), uid)
      case Err(e) => Err(e)
      case Ok(m) => Ok(Merged(Where(l, st.managed, false) + m.blocks, m.nextUid))
  {
  }

  /** A strategy whose typed `Merge` returns its input unchanged. */
  ghost predicate Identity(st: Strategy)
  {
    forall blocks, uid :: st.merge(blocks, uid) == Ok(Merged(blocks, uid))
  }

  /**
   * When every strategy is narrowed and merges to its own input, the
   * pipeline's output is a permutation of its input.
   */
  lemma {:induction false} IdentityPermutes(strategies: seq<Strategy>, l: seq<DataBlock>, uid: Guid)
    requires forall k :: 0 <= k < |strategies| ==> Narrowed(strategies[k]) && Identity(strategies[k])
    ensures ApplyFrom(strategies, l, uid).Ok?
    ensures multiset(ApplyFrom(strategies, l, uid).value.blocks) == multiset(l)
    ensures ApplyFrom(strategies, l, uid).value.nextUid == uid
    decreases |strategies|
  {
    if strategies != [] {
      var st := strategies[0];
      NoCastFailure(st, l, uid);
      PartitionConserves(l, st.managed);
      var next := Where(l, st.managed, false) + Where(l, st.managed, true);
      assert ApplyOne(st, l, uid) == Ok(Merged(next, uid));
      IdentityPermutes(strategies[1..], next, uid);
    }
  }

  /** Selecting from one more block of `l`. */
  lemma WhereSnoc(l: seq<DataBlock>, n: nat, p: DataBlock -> bool)
    requires n < |l|
    ensures Where(l[..n + 1], p, true) == Where(l[..n], p, true) + (if p(l[n]) then [l[n]] else [])
    ensures Where(l[..n + 1], p, false) == Where(l[..n], p, false) + (if p(l[n]) then [] else [l[n]])
  {
    assert l[..n + 1][..n] == l[..n];
  }

  /**
   * `localChildrenBlocks` after one strategy's scan: the managed blocks moved
   * to `impacted` with `RemoveAt(i)` and `i--`, which skips no block.
   */
  method SplitManaged(managed: DataBlock -> bool, l: seq<DataBlock>)
    returns (remaining: seq<DataBlock>, impacted: seq<DataBlock>)
    ensures remaining == Where(l, managed, false)
    ensures impacted == Where(l, managed, true)
  {
    remaining := l;
    impacted := [];
    var i := 0;
    ghost var n := 0;
    ghost var kept: seq<DataBlock> := [];
    while i < |remaining|
      invariant 0 <= n <= |l|
      invariant kept == Where(l[..n], managed, false) && impacted == Where(l[..n], managed, true)
      invariant remaining == kept + l[n..] && i == |kept|
      decreases |remaining| - i
    {
      var block := remaining[i];
      SplitStep(kept, l, n);
      WhereSnoc(l, n, managed);
      if managed(block) {
        impacted := impacted + [block];
        remaining := remaining[..i] + remaining[i + 1..];
        i := i - 1;
      } else {
        kept := kept + [block];
      }
      i := i + 1;
      n := n + 1;
    }
    assert l[..n] == l;
  }

  /** The block after the kept prefix is the next input block, and removing it leaves the rest of the input. */
  lemma SplitStep(kept: seq<DataBlock>, l: seq<DataBlock>, n: nat)
    requires n < |l|
    ensures (kept + l[n..])[|kept|] == l[n]
    ensures (kept + l[n..])[..|kept|] + (kept + l[n..])[|kept| + 1..] == kept + l[n + 1..]
    ensures kept + l[n..] == (kept + [l[n]]) + l[n + 1..]
  {
    assert l[n..] == [l[n]] + l[n + 1..];
    var w := kept + l[n..];
    assert w[..|kept|] == kept;
    assert w[|kept| + 1..] == l[n + 1..];
  }

  /** `MergeStrategyExtension.Apply`, over a working copy of the input. */
  method Apply(strategies: seq<Strategy>, children: Option<seq<DataBlock>>, uid: Guid) returns (r: Result<Merged>)
    ensures r == ApplySpec(strategies, children, uid)
  {
    if children.None? || children.value == [] {
      return Ok(Merged([], uid));
    }
    var localChildrenBlocks := children.value;
    var next := uid;
    var s := 0;
    while s < |strategies|
      invariant 0 <= s <= |strategies|
      invariant ApplyFrom(strategies[s..], localChildrenBlocks, next) == ApplySpec(strategies, children, uid)
    {
      var strategy := strategies[s];
      assert strategies[s..][0] == strategy && strategies[s..][1..] == strategies[s + 1..];
      var remaining, impacted := SplitManaged(strategy.managed, localChildrenBlocks);
      var remains := PublicMerge(strategy, impacted, next);
      if remains.Err? {
        return Err(remains.error);
      }
      localChildrenBlocks := remaining + remains.value.blocks;
      next := remains.value.nextUid;
      s := s + 1;
    }
    return Ok(Merged(localChildrenBlocks, next));
  }

  /** A sibling strategy: it owns the `DataTextBlock`s and runs the sibling passes over them. */
  function SiblingStrategy(kind: SiblingKind, ops: Geometry.FloatOps, fonts: map<Guid, FontMeta>,
                           maxMergeCount: int): (st: Strategy)
    ensures Narrowed(st)
    ensures forall b :: st.managed(b) <==> b.IsTextBlock()
  {
    Strategy(IsDataTextBlock, IsDataTextBlock,
             (blocks: seq<DataBlock>, uid: Guid) =>
               if AllTextBlocks(blocks) then SiblingMerge(kind, ops, fonts, maxMergeCount, blocks, uid)
               else Err(InvalidCast))
  }

  /** The sibling passes never lengthen what the pipeline carries. */
  lemma SiblingNeverGrows(kind: SiblingKind, ops: Geometry.FloatOps, fonts: map<Guid, FontMeta>,
                          maxMergeCount: int, l: seq<DataBlock>, uid: Guid)
    ensures var r := ApplyOne(SiblingStrategy(kind, ops, fonts, maxMergeCount), l, uid);
      r.Ok? ==> |r.value.blocks| <= |l|
  {
    var st := SiblingStrategy(kind, ops, fonts, maxMergeCount);
    PartitionConserves(l, st.managed);
  }

  /** A strategy whose round never lengthens the list it is given. */
  ghost predicate NeverGrows(st: Strategy)
  {
    forall l, uid :: ApplyOne(st, l, uid).Ok? ==> |ApplyOne(st, l, uid).value.blocks| <= |l|
  }

  /** Sibling strategies never lengthen the list. */
  lemma SiblingIsNeverGrowing(kind: SiblingKind, ops: Geometry.FloatOps, fonts: map<Guid, FontMeta>, maxMergeCount: int)
    ensures NeverGrows(SiblingStrategy(kind, ops, fonts, maxMergeCount))
  {
    forall l, uid {
      SiblingNeverGrows(kind, ops, fonts, maxMergeCount, l, uid);
    }
  }

  /** A round of strategies none of which lengthens the list never lengthens it. */
  lemma {:induction false} ApplyFromNeverGrows(strategies: seq<Strategy>, l: seq<DataBlock>, uid: Guid)
    requires forall k :: 0 <= k < |strategies| ==> NeverGrows(strategies[k])
    ensures ApplyFrom(strategies, l, uid).Ok? ==> |ApplyFrom(strategies, l, uid).value.blocks| <= |l|
    decreases |strategies|
  {
    if strategies != [] {
      var st := strategies[0];
      assert NeverGrows(st);
      match ApplyOne(st, l, uid)
      case Err(_) =>
      case Ok(m) =>
        assert |m.blocks| <= |l|;
        ApplyFromNeverGrows(strategies[1..], m.blocks, m.nextUid);
    }
  }
}
