/**
 * `DataTextBlockProximityStrategy`: a static queue of reusable groups, pulled
 * for one merge and released afterwards, and the strategy's own group merge.
 *
 * `Guid.NewGuid()` for a newly allocated group is the pool's `nextUid` counter.
 * The semaphore around the queue is left out: the model is sequential.
 */
module Pool {
  import opened Wrappers
  import opened Blocks
  import opened Group
  import opened GroupMerge

  /** The static constructor fills the queue with this many new groups. */
  const InitialPoolSize: nat := 200

  /** Two lists of groups share no group. */
  predicate Disjoint(a: seq<TextBlockGroup>, b: seq<TextBlockGroup>)
  {
    forall i, j :: 0 <= i < |a| && 0 <= j < |b| ==> a[i] != b[j]
  }

  /** How many queued groups a pull of `quantity` takes: the rest is allocated. */
  function Taken(quantity: int, queued: nat): (t: nat)
    ensures t <= queued && (quantity >= 0 ==> t <= quantity)
    ensures quantity >= queued ==> t == queued
    ensures 0 <= quantity <= queued ==> t == quantity
  {
    if quantity <= 0 then 0 else if quantity < queued then quantity else queued
  }

  class GroupPool {
    /** The queue of idle groups (`s_groupPool`). */
    var queue: seq<TextBlockGroup>
    /** The Uid the next newly allocated group receives. */
    var nextUid: Guid

    /** Idle groups are distinct, hold no block and are not in use. */
    ghost predicate Valid()
      reads this, queue
    {
      && Distinct(queue)
      && forall i :: 0 <= i < |queue| ==> queue[i].usage == 0 && queue[i].blocks == []
    }

    /** The static constructor: 200 new idle groups. */
    constructor (firstUid: Guid)
      ensures Valid() && |queue| == InitialPoolSize && nextUid == firstUid + InitialPoolSize
      ensures forall i :: 0 <= i < |queue| ==> fresh(queue[i])
    {
      var q: seq<TextBlockGroup> := [];
      var uid := firstUid;
      while |q| < InitialPoolSize
        invariant |q| <= InitialPoolSize && uid == firstUid + |q|
        invariant Distinct(q)
        invariant forall i :: 0 <= i < |q| ==> fresh(q[i]) && q[i].usage == 0 && q[i].blocks == []
      {
        var g := new TextBlockGroup(uid);
        q := q + [g];
        uid := uid + 1;
      }
      queue := q;
      nextUid := uid;
    }

    /**
     * `PullGroupItems(quantity)`: `quantity` groups, dequeued while the queue
     * lasts and allocated afterwards, each marked in use.
     */
    method PullGroupItems(quantity: int) returns (items: seq<TextBlockGroup>)
      requires Valid()
      modifies this, queue
      ensures Valid()
      ensures |items| == (if quantity < 0 then 0 else quantity)
      ensures var t := Taken(quantity, |old(queue)|);
        && items[..t] == old(queue)[..t] && queue == old(queue)[t..]
        && (forall i :: t <= i < |items| ==> fresh(items[i]))
        && nextUid == old(nextUid) + (|items| - t)
      ensures Distinct(items) && Disjoint(items, queue)
      ensures forall i :: 0 <= i < |items| ==> items[i].usage == 1 && items[i].IsUsed() && items[i].blocks == []
    {
      ghost var queued := queue;
      items := [];
      var i := 0;
      while i < quantity
        invariant 0 <= i <= (if quantity < 0 then 0 else quantity) && |items| == i
        invariant var t := Taken(i, |queued|);
          && items[..t] == queued[..t] && queue == queued[t..]
          && (forall j :: t <= j < i ==> fresh(items[j]))
          && nextUid == old(nextUid) + (i - t)
        invariant Valid() && Distinct(items) && Disjoint(items, queue)
        invariant forall j :: 0 <= j < i ==> items[j].usage == 1 && items[j].blocks == []
      {
        var item: TextBlockGroup;
        if |queue| > 0 {
          item := queue[0];
          queue := queue[1..];
        } else {
          item := new TextBlockGroup(nextUid);
          nextUid := nextUid + 1;
        }
        item.Initialize();
        items := items + [item];
        i := i + 1;
      }
    }

    /**
     * `ReleaseItems(groups)`: each group cleared (one user less, no block) and
     * put back at the end of the queue, in order.
     */
    method ReleaseItems(groups: seq<TextBlockGroup>)
      modifies this, groups
      ensures queue == old(queue) + groups && nextUid == old(nextUid)
      ensures forall i :: 0 <= i < |groups| ==>
        groups[i].blocks == [] && groups[i].usage == old(groups[i].usage) - multiset(groups)[groups[i]]
      ensures (old(Valid()) && Distinct(groups) && Disjoint(old(queue), groups)
               && (forall i :: 0 <= i < |groups| ==> old(groups[i].usage) == 1)) ==> Valid()
    {
      var k := 0;
      while k < |groups|
        invariant 0 <= k <= |groups| && queue == old(queue) + groups[..k] && nextUid == old(nextUid)
        invariant forall i :: 0 <= i < k ==> groups[i].blocks == []
        invariant forall i :: 0 <= i < |groups| ==> groups[i].usage == old(groups[i].usage) - multiset(groups[..k])[groups[i]]
      {
        var grp := groups[k];
        grp.Clear();
        assert multiset(groups[..k + 1]) == multiset(groups[..k]) + multiset{grp} by {
          assert groups[..k + 1] == groups[..k] + [grp];
        }
        queue := queue + [grp];
        k := k + 1;
      }
      assert groups[..k] == groups;
      if old(Valid()) && Distinct(groups) && Disjoint(old(queue), groups)
         && (forall i :: 0 <= i < |groups| ==> old(groups[i].usage) == 1) {
        DistinctCount(groups);
        IdleQueue(old(queue), groups);
      }
    }
  }

  /** Idle groups appended to a disjoint idle queue leave it idle. */
  lemma IdleQueue(queued: seq<TextBlockGroup>, groups: seq<TextBlockGroup>)
    requires Distinct(queued) && Distinct(groups) && Disjoint(queued, groups)
    requires forall i :: 0 <= i < |queued| ==> queued[i].usage == 0 && queued[i].blocks == []
    requires forall i :: 0 <= i < |groups| ==> groups[i].usage == 0 && groups[i].blocks == []
    ensures Distinct(queued + groups)
    ensures forall i :: 0 <= i < |queued + groups| ==> (queued + groups)[i].usage == 0 && (queued + groups)[i].blocks == []
  {
    var q := queued + groups;
    forall i | 0 <= i < |q| ensures q[i].usage == 0 && q[i].blocks == [] {
      if i >= |queued| {
        assert q[i] == groups[i - |queued|];
      } else {
        assert q[i] == queued[i];
      }
    }
    forall i, j | 0 <= i < j < |q| ensures q[i] != q[j] {
      if j < |queued| {
        assert q[i] == queued[i] && q[j] == queued[j];
      } else if i < |queued| {
        assert q[i] == queued[i] && q[j] == groups[j - |queued|];
      } else {
        assert q[i] == groups[i - |queued|] && q[j] == groups[j - |queued|];
      }
    }
  }

  /** In a list of distinct groups each group occurs once. */
  lemma DistinctCount(groups: seq<TextBlockGroup>)
    requires Distinct(groups)
    ensures forall i :: 0 <= i < |groups| ==> multiset(groups)[groups[i]] == 1
  {
    forall i | 0 <= i < |groups| ensures multiset(groups)[groups[i]] == 1 {
      var g := groups[i];
      assert groups == groups[..i] + [g] + groups[i + 1..];
      assert g !in groups[..i] by {
        forall j | 0 <= j < i ensures groups[..i][j] != g {
          assert groups[..i][j] == groups[j];
        }
      }
      var tail := groups[i + 1..];
      assert g !in tail by {
        forall j | 0 <= j < |tail| ensures tail[j] != g {
          assert tail[j] == groups[i + 1 + j];
        }
      }
      assert multiset(groups) == multiset(groups[..i]) + multiset{g} + multiset(tail);
    }
  }

  /** No group occurs twice in a list of distinct groups. */
  lemma CountAtMostOne(a: seq<TextBlockGroup>, x: TextBlockGroup)
    requires Distinct(a)
    ensures multiset(a)[x] <= 1
  {
    DistinctCount(a);
    if x in multiset(a) {
      var m :| 0 <= m < |a| && a[m] == x;
    }
  }

  /** A permutation of a list of distinct groups is a list of distinct groups. */
  lemma DistinctPermutation(a: seq<TextBlockGroup>, b: seq<TextBlockGroup>)
    requires Distinct(a) && multiset(a) == multiset(b)
    ensures Distinct(b)
  {
    forall i, j | 0 <= i < j < |b| ensures b[i] != b[j] {
      CountAtMostOne(a, b[j]);
      assert b == b[..j] + b[j..];
      assert b[j] == b[j..][0];
      assert multiset(b)[b[j]] == multiset(b[..j])[b[j]] + multiset(b[j..])[b[j]];
      assert b[i] == b[..j][i];
    }
  }

  /** The permutation of groups in use is in use. */
  lemma InUsePermutation(a: seq<TextBlockGroup>, b: seq<TextBlockGroup>)
    requires multiset(a) == multiset(b)
    requires forall i :: 0 <= i < |a| ==> a[i].usage == 1
    ensures forall i :: 0 <= i < |b| ==> b[i].usage == 1
  {
    forall i | 0 <= i < |b| ensures b[i].usage == 1 {
      assert b[i] in multiset(a);
      var m :| 0 <= m < |a| && a[m] == b[i];
    }
  }

  /** A list disjoint from `a` is disjoint from any permutation of `a`. */
  lemma DisjointPermutation(q: seq<TextBlockGroup>, a: seq<TextBlockGroup>, b: seq<TextBlockGroup>)
    requires Disjoint(a, q) && multiset(a) == multiset(b)
    ensures Disjoint(q, b)
  {
    forall i, j | 0 <= i < |q| && 0 <= j < |b| ensures q[i] != b[j] {
      assert b[j] in multiset(a);
      var m :| 0 <= m < |a| && a[m] == b[j];
    }
  }

  /** `CanMerge` of the proximity strategy is not implemented: it always throws. */
  function ThrowingCanMerge(current: Slot, other: Slot): (r: Result<bool>)
    ensures r.Err? && r.error == NotImplemented
  {
    Err(NotImplemented)
  }

  /**
   * The proximity merge of two or more blocks throws on its first `CanMerge`,
   * between the first two groups.
   */
  lemma ProximityAlwaysThrows(blocks: seq<DataBlock>, uids: seq<Guid>)
    requires |blocks| >= 2 && |uids| == |blocks|
    ensures GroupMergeSpec(ThrowingCanMerge, false, None, blocks, uids) == Err(NotImplemented)
  {
    var s := Seeds(blocks, uids);
    AbsorbStep(ThrowingCanMerge, false, s, 0, 0, 0);
    AbsorbStep(ThrowingCanMerge, false, s, 0, 0, 1);
  }

  /** What group `i` holds once the first `k` blocks went through the seeding loop as written. */
  function Seeded(blocks: seq<DataBlock>, k: nat, i: nat): (r: seq<DataBlock>)
    requires k <= |blocks|
    ensures |r| <= 1
  {
    if i % 2 == 0 && i / 2 < k then [blocks[i / 2]] else []
  }

  /** One more pass of the seeding loop fills group `2 * k` and no other. */
  lemma SeededNext(blocks: seq<DataBlock>, k: nat, i: nat)
    requires k < |blocks|
    ensures Seeded(blocks, k + 1, i) == if i == 2 * k then [blocks[k]] else Seeded(blocks, k, i)
  {
  }

  /**
   * The seeding loop as written: `grps[indx++]` and then `indx++` again, so
   * block `j` goes to group `2 * j`, and the `List` indexer throws
   * (`ArgumentOutOfRangeException`, the `IndexOutOfRange` case) as soon as
   * `2 * j` passes the last group.
   */
  method SeedAsWritten(blocks: seq<DataBlock>, grps: seq<TextBlockGroup>) returns (r: Result<()>)
    requires Distinct(grps)
    requires forall i :: 0 <= i < |grps| ==> grps[i].blocks == []
    modifies grps
    ensures r.Ok? <==> |blocks| == 0 || 2 * (|blocks| - 1) < |grps|
    ensures r.Err? ==> r.error == IndexOutOfRange
    ensures forall i :: 0 <= i < |grps| ==> grps[i].blocks == Seeded(blocks, |blocks|, i)
    ensures Usages(grps) == old(Usages(grps))
  {
    var indx := 0;
    var k := 0;
    while k < |blocks|
      invariant 0 <= k <= |blocks| && indx == 2 * k
      invariant k > 0 ==> 2 * (k - 1) < |grps|
      invariant forall i :: 0 <= i < |grps| ==> grps[i].blocks == Seeded(blocks, k, i)
      invariant Usages(grps) == old(Usages(grps))
    {
      if indx >= |grps| {
        assert 2 * (|blocks| - 1) >= |grps|;
        return Err(IndexOutOfRange);
      }
      var grp := grps[indx];
      grp.Push(blocks[k]);
      forall i | 0 <= i < |grps| ensures grps[i].blocks == Seeded(blocks, k + 1, i) {
        SeededNext(blocks, k, i);
      }
      indx := indx + 2;
      k := k + 1;
    }
    return Ok(());
  }

  /**
   * `DataTextBlockProximityStrategy.Merge` as written: fewer than two blocks
   * are returned as they are; otherwise the seeding loop throws, the pulled
   * groups are released and the exception escapes, so the merge and compile
   * loops after it are never reached.
   */
  method ProximityMergeAsWritten(pool: GroupPool, blocks: seq<DataBlock>) returns (r: Result<seq<DataBlock>>)
    requires pool.Valid()
    modifies pool, pool.queue
    ensures r == (if |blocks| < 2 then Ok(blocks) else Err(IndexOutOfRange))
    ensures pool.Valid()
  {
    if |blocks| < 2 {
      return Ok(blocks);
    }
    var grps := pool.PullGroupItems(|blocks|);
    var seeded := SeedAsWritten(blocks, grps);
    assert seeded.Err?;
    pool.ReleaseItems(grps);
    return Err(seeded.error);
  }

  /**
   * The proximity merge with the seeding loop advancing once per block: the
   * shared group merge with the throwing `CanMerge`, no Uid skipping and the
   * group's own `Compile`. Two or more blocks make it throw
   * `NotImplementedException`, and the pool gets its groups back idle.
   */
  method ProximityMerge(pool: GroupPool, blocks: seq<DataBlock>) returns (r: Result<seq<DataBlock>>)
    requires pool.Valid()
    modifies pool, pool.queue
    ensures r == (if |blocks| < 2 then Ok(blocks) else Err(NotImplemented))
    ensures pool.Valid()
  {
    if |blocks| < 2 {
      return Ok(blocks);
    }
    ghost var queued := pool.queue;
    var pulled := pool.PullGroupItems(|blocks|);
    assert forall i :: 0 <= i < |pulled| ==> pulled[i] in queued || fresh(pulled[i]) by {
      var t := Taken(|blocks|, |queued|);
      forall i | 0 <= i < |pulled| ensures pulled[i] in queued || fresh(pulled[i]) {
        if i < t {
          assert pulled[i] == pulled[..t][i];
        }
      }
    }
    var released;
    r, released := MergePulled(blocks, pulled);
    DisjointPermutation(pool.queue, pulled, released);
    forall j | 0 <= j < |released| ensures released[j] in queued || fresh(released[j]) {
      assert released[j] in multiset(pulled);
    }
    pool.ReleaseItems(released);
  }

  /**
   * The group merge of `ProximityMerge` on the pulled groups: it throws, and
   * hands back the same groups, still in use.
   */
  method MergePulled(blocks: seq<DataBlock>, pulled: seq<TextBlockGroup>)
    returns (r: Result<seq<DataBlock>>, released: seq<TextBlockGroup>)
    requires |blocks| >= 2 && |pulled| == |blocks| && Distinct(pulled)
    requires forall i :: 0 <= i < |pulled| ==> pulled[i].usage == 1 && pulled[i].blocks == []
    modifies pulled
    ensures r == Err(NotImplemented)
    ensures multiset(released) == multiset(pulled) && Distinct(released)
    ensures forall i :: 0 <= i < |released| ==> released[i].usage == 1
  {
    r, released := Merge(ThrowingCanMerge, false, None, blocks, pulled);
    ProximityAlwaysThrows(blocks, UidsOf(pulled));
    DistinctPermutation(pulled, released);
    assert forall i :: 0 <= i < |pulled| ==> pulled[i].usage == Usages(pulled)[i];
    InUsePermutation(pulled, released);
  }
}
