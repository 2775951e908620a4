/**
 * `DataTextBlockGroupComparer`: groups compared by the Uids of their ordered
 * children, hashed by XOR-ing the children's Uid hashes.
 *
 * `GetOrdererChildren` is called but not defined by the group class; the
 * comparer receives its outcome: `None` for a null group, `Some(None)` for a
 * group whose ordered children are null.
 */
module Comparer {
  import opened Wrappers
  import opened Blocks

  /** The Uids of the ordered children, null children read as none. */
  function ChildUids(children: Option<seq<DataBlock>>): (r: seq<Guid>)
    ensures children.None? ==> r == []
    ensures children.Some? ==>
      |r| == |children.value| && forall k :: 0 <= k < |r| ==> r[k] == children.value[k].uid
  {
    match children
    case None => []
    case Some(s) => seq(|s|, k requires 0 <= k < |s| => s[k].uid)
  }

  /** `Equals`: two null groups are equal, one null group equals nothing, otherwise the child Uids are compared in order. */
  predicate GroupsEqual(x: Option<Option<seq<DataBlock>>>, y: Option<Option<seq<DataBlock>>>)
    ensures x.None? && y.None? ==> GroupsEqual(x, y)
    ensures x.None? != y.None? ==> !GroupsEqual(x, y)
    ensures GroupsEqual(x, y) && x.Some? ==> |ChildUids(x.value)| == |ChildUids(y.value)|
  {
    match (x, y)
    case (None, None) => true
    case (Some(cx), Some(cy)) => ChildUids(cx) == ChildUids(cy)
    case _ => false
  }

  /** `Equals` is an equivalence relation. */
  lemma {:induction false} GroupsEqualIsEquivalence(x: Option<Option<seq<DataBlock>>>,
                                                    y: Option<Option<seq<DataBlock>>>,
                                                    z: Option<Option<seq<DataBlock>>>)
    ensures GroupsEqual(x, x)
    ensures GroupsEqual(x, y) <==> GroupsEqual(y, x)
    ensures GroupsEqual(x, y) && GroupsEqual(y, z) ==> GroupsEqual(x, z)
  {
  }

  /** Two non-null groups are equal exactly when their children have the same Uids at the same positions. */
  lemma {:induction false} EqualIffSameUids(cx: Option<seq<DataBlock>>, cy: Option<seq<DataBlock>>)
    ensures GroupsEqual(Some(cx), Some(cy)) <==>
      |OrEmpty(cx)| == |OrEmpty(cy)| && forall k :: 0 <= k < |OrEmpty(cx)| ==> OrEmpty(cx)[k].uid == OrEmpty(cy)[k].uid
  {
    var ux, uy := ChildUids(cx), ChildUids(cy);
    if |OrEmpty(cx)| == |OrEmpty(cy)| && forall k :: 0 <= k < |OrEmpty(cx)| ==> OrEmpty(cx)[k].uid == OrEmpty(cy)[k].uid {
      assert |ux| == |uy|;
      forall k | 0 <= k < |ux| ensures ux[k] == uy[k] {
        assert ux[k] == OrEmpty(cx)[k].uid;
      }
    }
    if ux == uy {
      forall k | 0 <= k < |OrEmpty(cx)| ensures OrEmpty(cx)[k].uid == OrEmpty(cy)[k].uid {
        assert ux[k] == OrEmpty(cx)[k].uid && uy[k] == OrEmpty(cy)[k].uid;
      }
    }
  }

  /** `Aggregate(0, (acc, c) => acc ^ hash(c))`: a left fold of XOR over the Uid hashes. */
  function XorFold(uids: seq<Guid>, hash: Guid -> bv32): (h: bv32)
    ensures uids == [] ==> h == 0
    ensures |uids| == 1 ==> h == hash(uids[0])
  {
    if uids == [] then 0 else XorFold(uids[..|uids| - 1], hash) ^ hash(uids[|uids| - 1])
  }

  /** `GetHashCode`: 0 when the ordered children are null. */
  function GroupHash(children: Option<seq<DataBlock>>, hash: Guid -> bv32): (h: bv32)
    ensures children.None? ==> h == 0
  {
    match children
    case None => 0
    case Some(_) => XorFold(ChildUids(children), hash)
  }

  /** Equal groups have equal hashes, for every hash of the Uids. */
  lemma {:induction false} EqualGroupsEqualHashes(cx: Option<seq<DataBlock>>, cy: Option<seq<DataBlock>>, hash: Guid -> bv32)
    requires GroupsEqual(Some(cx), Some(cy))
    ensures GroupHash(cx, hash) == GroupHash(cy, hash)
  {
    assert GroupHash(cx, hash) == XorFold(ChildUids(cx), hash);
    assert GroupHash(cy, hash) == XorFold(ChildUids(cy), hash);
  }

  /** Removing one Uid from anywhere takes its hash out of the fold. */
  lemma {:induction false} XorFoldRemove(s: seq<Guid>, j: nat, hash: Guid -> bv32)
    requires j < |s|
    ensures XorFold(s, hash) == XorFold(s[..j] + s[j + 1..], hash) ^ hash(s[j])
    decreases |s|
  {
    var n := |s| - 1;
    if j == n {
      assert s[..j] + s[j + 1..] == s[..n];
    } else {
      var t := s[..j] + s[j + 1..];
      XorFoldRemove(s[..n], j, hash);
      assert s[..n][..j] + s[..n][j + 1..] == t[..|t| - 1];
      assert t[|t| - 1] == s[n];
      assert s[..n][j] == s[j];
    }
  }

  /** The hash does not depend on the order of the children. */
  lemma {:induction false} XorFoldPermutation(s: seq<Guid>, t: seq<Guid>, hash: Guid -> bv32)
    requires multiset(s) == multiset(t)
    ensures XorFold(s, hash) == XorFold(t, hash)
    decreases |s|
  {
    if s != [] {
      var n := |s| - 1;
      var x := s[n];
      assert x in multiset(t);
      var j :| 0 <= j < |t| && t[j] == x;
      var t' := t[..j] + t[j + 1..];
      assert t == t[..j] + [t[j]] + t[j + 1..];
      assert s == s[..n] + [x];
      assert multiset(t) == multiset(t[..j]) + multiset{x} + multiset(t[j + 1..]);
      assert multiset(t') == multiset(t[..j]) + multiset(t[j + 1..]);
      assert multiset(s) == multiset(s[..n]) + multiset{x};
      assert multiset(s[..n]) == multiset(s) - multiset{x};
      assert multiset(t') == multiset(t) - multiset{x};
      XorFoldPermutation(s[..n], t', hash);
      XorFoldRemove(t, j, hash);
    } else {
      assert |t| == |multiset(t)|;
    }
  }

  /** Groups whose ordered children differ only in order have equal hashes. */
  lemma {:induction false} HashIgnoresOrder(cx: seq<DataBlock>, cy: seq<DataBlock>, hash: Guid -> bv32)
    requires multiset(ChildUids(Some(cx))) == multiset(ChildUids(Some(cy)))
    ensures GroupHash(Some(cx), hash) == GroupHash(Some(cy), hash)
  {
    XorFoldPermutation(ChildUids(Some(cx)), ChildUids(Some(cy)), hash);
  }
}
