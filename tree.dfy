/**
 * `EnumerableExtensions.GetTreeElement`: the lazy pre-order flattening of a
 * block forest, following each block's `Children`. Both call sites pass
 * `b => b.Children`; `follow == false` stands for a null child selector.
 */
module Tree {
  import opened Wrappers
  import opened Blocks

  /** Number of blocks in a block's subtree, itself included. */
  function NodeCount(b: DataBlock): (n: nat)
    ensures n >= 1
    decreases b, 1
  {
    1 + (if b.children.ChildList? then ForestCount(b.children.items) else 0)
  }

  function ForestCount(s: seq<DataBlock>): nat
    decreases s, 0
  {
    if s == [] then 0 else NodeCount(s[0]) + ForestCount(s[1..])
  }

  /** A block followed by the flattening of its children, when there are any to follow. */
  function FlattenNode(b: DataBlock, follow: bool): (r: seq<DataBlock>)
    ensures |r| >= 1 && r[0] == b
    decreases b, 1
  {
    [b] + (if follow && b.children.ChildList? then FlattenForest(b.children.items, follow) else [])
  }

  /** The forest overload over a non-null source. */
  function FlattenForest(s: seq<DataBlock>, follow: bool): seq<DataBlock>
    decreases s, 0
  {
    if s == [] then [] else FlattenNode(s[0], follow) + FlattenForest(s[1..], follow)
  }

  /** `source.GetTreeElement(getChild)`; a null source yields nothing. */
  function GetTreeElement(source: Option<seq<DataBlock>>, follow: bool): (r: seq<DataBlock>)
    ensures source.None? ==> r == []
    ensures source.Some? && !follow ==> r == source.value
    ensures source.Some? && follow ==> |r| == ForestCount(source.value)
  {
    if source.None? then []
    else
      ForestCountMatches(source.value);
      NoFollowIsIdentity(source.value);
      FlattenForest(source.value, follow)
  }

  /**
   * `root.GetTreeElement(getChild, getChildRec)`: the flattening of a root's
   * children; a null root or null children yield nothing.
   */
  function GetTreeElementOfRoot(root: Option<DataBlock>, follow: bool): (r: seq<DataBlock>)
    ensures root.None? || root.value.children.NullChildren? ==> r == []
    ensures root.Some? ==> root.value !in r
    ensures root.Some? && follow ==> |r| == NodeCount(root.value) - 1
  {
    if root.None? || root.value.children.NullChildren? then []
    else
      var r := GetTreeElement(Some(root.value.children.items), follow);
      BelowRoot(root.value, follow);
      r
  }

  /** With a null child selector only the source elements come out, in order. */
  lemma {:induction false} NoFollowIsIdentity(s: seq<DataBlock>)
    ensures FlattenForest(s, false) == s
    decreases s
  {
    if s != [] {
      NoFollowIsIdentity(s[1..]);
      assert s == [s[0]] + s[1..];
    }
  }

  /** The flattening of a forest has one entry per block of the forest. */
  lemma {:induction false} ForestCountMatches(s: seq<DataBlock>)
    ensures |FlattenForest(s, true)| == ForestCount(s)
    decreases s, 0
  {
    if s != [] {
      NodeCountMatches(s[0]);
      ForestCountMatches(s[1..]);
    }
  }

  lemma {:induction false} NodeCountMatches(b: DataBlock)
    ensures |FlattenNode(b, true)| == NodeCount(b)
    decreases b, 1
  {
    if b.children.ChildList? {
      ForestCountMatches(b.children.items);
    }
  }

  /** Every block of a forest's flattening is at most as large as the forest. */
  lemma {:induction false} ForestElementsAreSmaller(s: seq<DataBlock>, follow: bool)
    ensures forall x :: x in FlattenForest(s, follow) ==> NodeCount(x) <= ForestCount(s)
    decreases s, 0
  {
    if s != [] {
      NodeElementsAreSmaller(s[0], follow);
      ForestElementsAreSmaller(s[1..], follow);
    }
  }

  lemma {:induction false} NodeElementsAreSmaller(b: DataBlock, follow: bool)
    ensures forall x :: x in FlattenNode(b, follow) ==> NodeCount(x) <= NodeCount(b)
    decreases b, 1
  {
    if follow && b.children.ChildList? {
      ForestElementsAreSmaller(b.children.items, follow);
    }
  }

  /** The root is strictly larger than anything below it, so it is never yielded. */
  lemma {:induction false} BelowRoot(root: DataBlock, follow: bool)
    requires root.children.ChildList?
    ensures root !in FlattenForest(root.children.items, follow)
    ensures follow ==> |FlattenForest(root.children.items, follow)| == NodeCount(root) - 1
  {
    ForestElementsAreSmaller(root.children.items, follow);
    if follow {
      ForestCountMatches(root.children.items);
    }
  }

  /** Flattening distributes over concatenation of forests. */
  lemma {:induction false} FlattenAppend(a: seq<DataBlock>, b: seq<DataBlock>, follow: bool)
    ensures FlattenForest(a + b, follow) == FlattenForest(a, follow) + FlattenForest(b, follow)
    decreases a
  {
    if a == [] {
      assert a + b == b;
    } else {
      assert (a + b)[0] == a[0];
      assert (a + b)[1..] == a[1..] + b;
      FlattenAppend(a[1..], b, follow);
    }
  }

  /**
   * Pre-order: the i-th source block comes out after everything yielded for the
   * blocks before it, immediately followed by the flattening of its own
   * children, and before everything yielded for the blocks after it.
   */
  lemma {:induction false} PreOrder(s: seq<DataBlock>, i: nat, follow: bool)
    requires i < |s|
    ensures FlattenForest(s, follow) ==
      FlattenForest(s[..i], follow) + [s[i]]
      + (if follow && s[i].children.ChildList? then FlattenForest(s[i].children.items, follow) else [])
      + FlattenForest(s[i + 1..], follow)
  {
    var t := [s[i]] + s[i + 1..];
    assert s == s[..i] + t;
    FlattenAppend(s[..i], t, follow);
    assert t[0] == s[i] && t[1..] == s[i + 1..];
    var below := if follow && s[i].children.ChildList? then FlattenForest(s[i].children.items, follow) else [];
    assert FlattenForest(t, follow) == [s[i]] + below + FlattenForest(s[i + 1..], follow);
  }

  /** Closure: every child of a yielded block is yielded as well. */
  lemma {:induction false} ChildrenAreYielded(s: seq<DataBlock>, x: DataBlock, c: DataBlock)
    requires x in FlattenForest(s, true)
    requires x.children.ChildList? && c in x.children.items
    ensures c in FlattenForest(s, true)
    decreases s, 0
  {
    if x in FlattenNode(s[0], true) {
      NodeChildrenAreYielded(s[0], x, c);
    } else {
      ChildrenAreYielded(s[1..], x, c);
    }
  }

  lemma {:induction false} NodeChildrenAreYielded(b: DataBlock, x: DataBlock, c: DataBlock)
    requires x in FlattenNode(b, true)
    requires x.children.ChildList? && c in x.children.items
    ensures c in FlattenNode(b, true)
    decreases b, 1
  {
    if x == b {
      ChildInForest(b.children.items, c);
    } else {
      ChildrenAreYielded(b.children.items, x, c);
    }
  }

  lemma {:induction false} ChildInForest(s: seq<DataBlock>, c: DataBlock)
    requires c in s
    ensures c in FlattenForest(s, true)
    decreases s
  {
    if s[0] != c {
      ChildInForest(s[1..], c);
    }
  }
}
