/**
 * The group strategies (`DataTextBlockGroupBaseStrategy` with its overlap and
 * text-box subclasses): one pooled group per block, every group absorbing the
 * later-compatible groups, one compiled block per surviving group.
 *
 * The group members the strategies read but the group class does not define
 * (`LineSize`, `Magnitude`, `GetWorldArea`, `TextBoxIds`) are functions of the
 * group's blocks supplied in `GroupView`. The static `PullGroupItems` and
 * `ReleaseItems` of the group class are not defined either: the merge receives
 * the pulled groups and returns the groups it hands back, in order.
 */
module GroupMerge {
  import opened Wrappers
  import opened Geometry
  import opened Blocks
  import opened Seqs
  import opened Group

  /** A group as the merge predicates and the compilers see it: its Uid and its blocks. */
  datatype Slot = Slot(uid: Guid, blocks: seq<DataBlock>)

  /** The group members referenced by the strategies but not defined by the group class. */
  datatype GroupView = GroupView(
    lineSize: seq<DataBlock> -> real,
    magnitude: seq<DataBlock> -> real,
    worldArea: seq<DataBlock> -> BlockArea,
    textBoxIds: seq<DataBlock> -> Option<seq<real>>)

  /** The tolerance of the overlap strategy's second test. */
  const OverlapTolerance: real := 4.0

  /**
   * `DataTextBlockOverlapStrategy.CanMerge`: the same line size (when fonts
   * are compared) and magnitude, and world areas that overlap exactly or
   * within the tolerance.
   */
  predicate OverlapCanMerge(view: GroupView, ops: FloatOps, compareFontInfo: bool, current: Slot, other: Slot)
    ensures OverlapCanMerge(view, ops, compareFontInfo, current, other) ==>
      && (compareFontInfo ==> view.lineSize(current.blocks) == view.lineSize(other.blocks))
      && view.magnitude(current.blocks) == view.magnitude(other.blocks)
      && (ops.overlap(view.worldArea(current.blocks), view.worldArea(other.blocks), None)
          || ops.overlap(view.worldArea(current.blocks), view.worldArea(other.blocks), Some(OverlapTolerance)))
  {
    if compareFontInfo && view.lineSize(current.blocks) != view.lineSize(other.blocks) then false
    else if view.magnitude(current.blocks) != view.magnitude(other.blocks) then false
    else
      var currentArea := view.worldArea(current.blocks);
      var otherArea := view.worldArea(other.blocks);
      if ops.overlap(currentArea, otherArea, None) then true
      else ops.overlap(currentArea, otherArea, Some(OverlapTolerance))
  }

  /** What the overlap predicate decides, case by case. */
  lemma OverlapCases(view: GroupView, ops: FloatOps, compareFontInfo: bool, current: Slot, other: Slot)
    ensures compareFontInfo && view.lineSize(current.blocks) != view.lineSize(other.blocks) ==>
      !OverlapCanMerge(view, ops, compareFontInfo, current, other)
    ensures view.magnitude(current.blocks) != view.magnitude(other.blocks) ==>
      !OverlapCanMerge(view, ops, compareFontInfo, current, other)
    ensures var a, b := view.worldArea(current.blocks), view.worldArea(other.blocks);
      (!compareFontInfo || view.lineSize(current.blocks) == view.lineSize(other.blocks))
      && view.magnitude(current.blocks) == view.magnitude(other.blocks) ==>
      (OverlapCanMerge(view, ops, compareFontInfo, current, other) <==>
         ops.overlap(a, b, None) || ops.overlap(a, b, Some(OverlapTolerance)))
  {
  }

  /** `SequenceEqual` of two text-box id lists, false when either is null. */
  predicate TextBoxesMatch(a: Option<seq<real>>, b: Option<seq<real>>)
  {
    a.Some? && b.Some? && a.value == b.value
  }

  /** `DataBlockMergePDFTextBoxStrategy.CanMerge`. */
  predicate TextBoxCanMerge(view: GroupView, current: Slot, other: Slot)
    ensures TextBoxCanMerge(view, current, other) <==>
      && view.textBoxIds(current.blocks).Some? && view.textBoxIds(other.blocks).Some?
      && view.textBoxIds(current.blocks).value == view.textBoxIds(other.blocks).value
  {
    TextBoxesMatch(view.textBoxIds(current.blocks), view.textBoxIds(other.blocks))
  }

  /** The text-box predicate is symmetric, and false whenever either side has no ids. */
  lemma {:induction false} TextBoxSymmetric(view: GroupView, current: Slot, other: Slot)
    ensures TextBoxCanMerge(view, current, other) <==> TextBoxCanMerge(view, other, current)
    ensures view.textBoxIds(current.blocks).None? || view.textBoxIds(other.blocks).None? ==>
      !TextBoxCanMerge(view, current, other)
  {
  }

  /** Two id lists match exactly when they agree position by position: the same ids in another order do not match. */
  lemma TextBoxesOrderSensitive(a: seq<real>, b: seq<real>)
    ensures TextBoxesMatch(Some(a), Some(b)) <==> |a| == |b| && forall k :: 0 <= k < |a| ==> a[k] == b[k]
    ensures |a| == |b| && (exists k :: 0 <= k < |a| && a[k] != b[k]) ==> !TextBoxesMatch(Some(a), Some(b))
  {
    if |a| == |b| && forall k :: 0 <= k < |a| ==> a[k] == b[k] {
      assert a == b;
    }
  }

  /** Every block held by the groups, counted with multiplicity. */
  function BlockBag(s: seq<Slot>): multiset<DataBlock>
  {
    if s == [] then multiset{} else multiset(s[0].blocks) + BlockBag(s[1..])
  }

  lemma {:induction false} BlockBagAppend(a: seq<Slot>, b: seq<Slot>)
    ensures BlockBag(a + b) == BlockBag(a) + BlockBag(b)
    decreases |a|
  {
    if a != [] {
      assert (a + b)[1..] == a[1..] + b;
      BlockBagAppend(a[1..], b);
    } else {
      assert a + b == b;
    }
  }

  /** The groups after the group at `c` consumed the group at `k` and the latter was removed. */
  function Consumed(s: seq<Slot>, c: nat, k: nat): (r: seq<Slot>)
    requires c < |s| && k < |s| && c != k
    ensures |r| == |s| - 1
    ensures BlockBag(r) == BlockBag(s)
    ensures forall i :: 0 <= i < |r| ==>
      r[i] == (var j := if i < k then i else i + 1; if j == c then Slot(s[c].uid, s[c].blocks + s[k].blocks) else s[j])
  {
    ConsumedBag(s, c, k);
    RemoveAt(s[c := Slot(s[c].uid, s[c].blocks + s[k].blocks)], k)
  }

  /** The blocks of the groups around position `i` and of group `i` itself. */
  lemma {:induction false} BlockBagSplit(s: seq<Slot>, i: nat)
    requires i < |s|
    ensures BlockBag(s) == BlockBag(s[..i]) + multiset(s[i].blocks) + BlockBag(s[i + 1..])
  {
    assert s == s[..i] + ([s[i]] + s[i + 1..]);
    BlockBagAppend(s[..i], [s[i]] + s[i + 1..]);
    assert ([s[i]] + s[i + 1..])[1..] == s[i + 1..];
  }

  lemma {:induction false} BlockBagUpdate(s: seq<Slot>, c: nat, extra: seq<DataBlock>)
    requires c < |s|
    ensures BlockBag(s[c := Slot(s[c].uid, s[c].blocks + extra)]) == BlockBag(s) + multiset(extra)
  {
    var t := s[c := Slot(s[c].uid, s[c].blocks + extra)];
    BlockBagSplit(s, c);
    BlockBagSplit(t, c);
    assert t[..c] == s[..c] && t[c + 1..] == s[c + 1..];
  }

  lemma {:induction false} BlockBagRemove(t: seq<Slot>, k: nat)
    requires k < |t|
    ensures BlockBag(RemoveAt(t, k)) + multiset(t[k].blocks) == BlockBag(t)
  {
    BlockBagSplit(t, k);
    assert RemoveAt(t, k) == t[..k] + t[k + 1..];
    BlockBagAppend(t[..k], t[k + 1..]);
  }

  /** Moving the blocks of group `k` into group `c` and dropping group `k` keeps every block. */
  lemma {:induction false} ConsumedBag(s: seq<Slot>, c: nat, k: nat)
    requires c < |s| && k < |s| && c != k
    ensures BlockBag(RemoveAt(s[c := Slot(s[c].uid, s[c].blocks + s[k].blocks)], k)) == BlockBag(s)
  {
    var m := Slot(s[c].uid, s[c].blocks + s[k].blocks);
    BlockBagUpdate(s, c, s[k].blocks);
    var t := s[c := m];
    BlockBagRemove(t, k);
    var K := multiset(s[k].blocks);
    var A, B := BlockBag(RemoveAt(t, k)), BlockBag(s);
    assert A + K == B + K;
    assert forall x :: A[x] == (A + K)[x] - K[x] && B[x] == (B + K)[x] - K[x];
  }

  /**
   * The nested loops of the group merge from outer index `g`, current group at
   * `c` and inner index `k`. Groups are skipped by index and, when
   * `skipSameUid`, by equal Uid; a consumed group is removed and the inner
   * index stays where it is. Removing a group before the current one shifts
   * the current group down while the outer index stays.
   */
  function Absorb(canMerge: (Slot, Slot) -> Result<bool>, skipSameUid: bool,
                  s: seq<Slot>, g: nat, c: nat, k: nat): (r: Result<seq<Slot>>)
    requires c < |s| && k <= |s|
    ensures r.Ok? ==> 1 <= |r.value| <= |s| && BlockBag(r.value) == BlockBag(s)
    decreases |s|, (if g < |s| then |s| - g else 0), |s| - k
  {
    if k == |s| then
      if g + 1 < |s| then Absorb(canMerge, skipSameUid, s, g + 1, g + 1, 0) else Ok(s)
    else if k == g || (skipSameUid && s[c].uid == s[k].uid) then
      Absorb(canMerge, skipSameUid, s, g, c, k + 1)
    else
      match canMerge(s[c], s[k])
      case Err(e) => Err(e)
      case Ok(merge) =>
        if !merge then Absorb(canMerge, skipSameUid, s, g, c, k + 1)
        else if k == c then Err(InvalidOperation)
        else Absorb(canMerge, skipSameUid, Consumed(s, c, k), g, if k < c then c - 1 else c, k)
  }

  /** Every seed holds its one block. */
  lemma SeedsNonEmpty(blocks: seq<DataBlock>, uids: seq<Guid>)
    requires |uids| == |blocks|
    ensures NonEmpty(Seeds(blocks, uids))
  {
  }

  /** The inner loop ends by moving to the next outer index, or by finishing. */
  lemma AbsorbEnd(canMerge: (Slot, Slot) -> Result<bool>, skipSameUid: bool, s: seq<Slot>, g: nat, c: nat)
    requires c < |s|
    ensures Absorb(canMerge, skipSameUid, s, g, c, |s|)
      == (if g + 1 < |s| then Absorb(canMerge, skipSameUid, s, g + 1, g + 1, 0) else Ok(s))
  {
  }

  /** One group per block: block `i` alone in the group with the `i`-th Uid. */
  function Seeds(blocks: seq<DataBlock>, uids: seq<Guid>): (r: seq<Slot>)
    requires |uids| == |blocks|
    ensures |r| == |blocks| && forall i :: 0 <= i < |r| ==> r[i] == Slot(uids[i], [blocks[i]])
    ensures BlockBag(r) == multiset(blocks)
    decreases |blocks|
  {
    if blocks == [] then []
    else
      var r := [Slot(uids[0], [blocks[0]])] + Seeds(blocks[1..], uids[1..]);
      assert r[1..] == Seeds(blocks[1..], uids[1..]);
      assert blocks == [blocks[0]] + blocks[1..];
      r
  }

  /** `customCompile?.Invoke(g) ?? g.Compile()`, where `Compile` always throws. */
  function CompileOne(customCompile: Option<Slot -> Option<DataBlock>>, s: Slot): (r: Result<DataBlock>)
    ensures r.Err? ==> r.error == NotImplemented
    ensures customCompile.None? ==> r.Err?
    ensures customCompile.Some? && customCompile.value(s).Some? ==> r == Ok(customCompile.value(s).value)
  {
    match customCompile
    case None => Err(NotImplemented)
    case Some(f) =>
      match f(s)
      case Some(b) => Ok(b)
      case None => Err(NotImplemented)
  }

  /** The compiled blocks of the surviving groups, in their order; the first failure throws. */
  function CompileAll(customCompile: Option<Slot -> Option<DataBlock>>, s: seq<Slot>): (r: Result<seq<DataBlock>>)
    ensures r.Ok? <==> forall i :: 0 <= i < |s| ==> CompileOne(customCompile, s[i]).Ok?
    ensures r.Ok? ==> |r.value| == |s| && forall i :: 0 <= i < |s| ==> Ok(r.value[i]) == CompileOne(customCompile, s[i])
    ensures r.Err? ==> r.error == NotImplemented
    decreases |s|
  {
    if s == [] then Ok([])
    else
      match CompileAll(customCompile, s[..|s| - 1])
      case Err(e) => Err(e)
      case Ok(done) =>
        match CompileOne(customCompile, s[|s| - 1])
        case Err(e) => Err(e)
        case Ok(b) => Ok(done + [b])
  }

  /** The typed `Merge` of a group strategy, given the Uids of the groups it pulls. */
  function GroupMergeSpec(canMerge: (Slot, Slot) -> Result<bool>, skipSameUid: bool,
                          customCompile: Option<Slot -> Option<DataBlock>>,
                          blocks: seq<DataBlock>, uids: seq<Guid>): (r: Result<seq<DataBlock>>)
    requires |blocks| >= 2 ==> |uids| == |blocks|
    ensures |blocks| < 2 ==> r == Ok(blocks)
    ensures r.Ok? ==> |r.value| <= |blocks|
    ensures |blocks| >= 2 && customCompile.None? ==> r.Err?
  {
    if |blocks| < 2 then Ok(blocks)
    else
      match Absorb(canMerge, skipSameUid, Seeds(blocks, uids), 0, 0, 0)
      case Err(e) => Err(e)
      case Ok(s) => CompileAll(customCompile, s)
  }

  /**
   * When the merge succeeds, every input block lies in exactly one surviving
   * group, and each output block is the compilation of one of them.
   */
  lemma {:induction false} GroupMergeConserves(canMerge: (Slot, Slot) -> Result<bool>, skipSameUid: bool,
                                               blocks: seq<DataBlock>, uids: seq<Guid>)
    requires |blocks| >= 2 && |uids| == |blocks|
    requires Absorb(canMerge, skipSameUid, Seeds(blocks, uids), 0, 0, 0).Ok?
    ensures var s := Absorb(canMerge, skipSameUid, Seeds(blocks, uids), 0, 0, 0).value;
      1 <= |s| <= |blocks| && BlockBag(s) == multiset(blocks)
  {
  }

  /** One step of the nested loops. */
  lemma AbsorbStep(canMerge: (Slot, Slot) -> Result<bool>, skipSameUid: bool,
                   s: seq<Slot>, g: nat, c: nat, k: nat)
    requires c < |s| && k < |s|
    ensures k == g || (skipSameUid && s[c].uid == s[k].uid) ==>
      Absorb(canMerge, skipSameUid, s, g, c, k) == Absorb(canMerge, skipSameUid, s, g, c, k + 1)
    ensures k != g && !(skipSameUid && s[c].uid == s[k].uid) && canMerge(s[c], s[k]).Err? ==>
      Absorb(canMerge, skipSameUid, s, g, c, k) == Err(canMerge(s[c], s[k]).error)
    ensures k != g && !(skipSameUid && s[c].uid == s[k].uid) && canMerge(s[c], s[k]) == Ok(false) ==>
      Absorb(canMerge, skipSameUid, s, g, c, k) == Absorb(canMerge, skipSameUid, s, g, c, k + 1)
    ensures k != g && !(skipSameUid && s[c].uid == s[k].uid) && canMerge(s[c], s[k]) == Ok(true) && k == c ==>
      Absorb(canMerge, skipSameUid, s, g, c, k) == Err(InvalidOperation)
    ensures k != g && !(skipSameUid && s[c].uid == s[k].uid) && canMerge(s[c], s[k]) == Ok(true) && k != c ==>
      Absorb(canMerge, skipSameUid, s, g, c, k)
      == Absorb(canMerge, skipSameUid, Consumed(s, c, k), g, if k < c then c - 1 else c, k)
  {
  }

  /** The Uids of the pulled groups. */
  function UidsOf(groups: seq<TextBlockGroup>): (r: seq<Guid>)
    ensures |r| == |groups| && forall i :: 0 <= i < |groups| ==> r[i] == groups[i].uid
  {
    seq(|groups|, i requires 0 <= i < |groups| => groups[i].uid)
  }

  /** The groups as the spec sees them. */
  ghost function Slots(groups: seq<TextBlockGroup>): (r: seq<Slot>)
    reads groups
    ensures |r| == |groups| && forall i :: 0 <= i < |groups| ==> r[i] == Slot(groups[i].uid, groups[i].blocks)
  {
    seq(|groups|, i reads groups requires 0 <= i < |groups| => Slot(groups[i].uid, groups[i].blocks))
  }

  /** The use counters of the groups. */
  ghost function Usages(groups: seq<TextBlockGroup>): (r: seq<int>)
    reads groups
    ensures |r| == |groups| && forall i :: 0 <= i < |groups| ==> r[i] == groups[i].usage
  {
    seq(|groups|, i reads groups requires 0 <= i < |groups| => groups[i].usage)
  }

  predicate Distinct(groups: seq<TextBlockGroup>)
  {
    forall i, j :: 0 <= i < j < |groups| ==> groups[i] != groups[j]
  }

  /** After the slot at `c` took in the blocks of the slot at `k`, the list without `k` is `Consumed`. */
  lemma ConsumedSlots(before: seq<Slot>, after: seq<Slot>, c: nat, k: nat)
    requires |after| == |before| && c < |before| && k < |before| && c != k
    requires after[c] == Slot(before[c].uid, before[c].blocks + before[k].blocks)
    requires forall i :: 0 <= i < |before| && i != c ==> after[i] == before[i]
    ensures RemoveAt(after, k) == Consumed(before, c, k)
  {
    var r := RemoveAt(after, k);
    var t := Consumed(before, c, k);
    forall i | 0 <= i < |r| ensures r[i] == t[i] {
      if i < k {
        assert r[i] == after[i];
      } else {
        assert r[i] == after[i + 1];
      }
    }
  }

  /** Every slot holds at least one block. */
  predicate NonEmpty(s: seq<Slot>)
  {
    forall i :: 0 <= i < |s| ==> s[i].blocks != []
  }

  /** Every group of `grps` is one of `groups`. */
  predicate Within(grps: seq<TextBlockGroup>, groups: seq<TextBlockGroup>)
  {
    forall i :: 0 <= i < |grps| ==> grps[i] in groups
  }

  /** A consumption leaves no slot empty. */
  lemma ConsumedNonEmpty(s: seq<Slot>, c: nat, k: nat)
    requires c < |s| && k < |s| && c != k && NonEmpty(s)
    ensures NonEmpty(Consumed(s, c, k))
  {
    var r := Consumed(s, c, k);
    forall i | 0 <= i < |r| ensures r[i].blocks != [] {
      var j := if i < k then i else i + 1;
      assert j == c || r[i] == s[j];
    }
  }

  /** Removing a group keeps the others among `groups`. */
  lemma WithinRemoveAt(grps: seq<TextBlockGroup>, k: nat, groups: seq<TextBlockGroup>)
    requires k < |grps| && Within(grps, groups)
    ensures Within(RemoveAt(grps, k), groups)
  {
    var r := RemoveAt(grps, k);
    forall i | 0 <= i < |r| ensures r[i] in groups {
      assert r[i] == grps[if i < k then i else i + 1];
    }
  }

  /** Removing a group removes its slot. */
  lemma SlotsRemoveAt(grps: seq<TextBlockGroup>, k: nat)
    requires k < |grps|
    ensures Slots(RemoveAt(grps, k)) == RemoveAt(Slots(grps), k)
  {
  }

  /** Removing a group keeps the others distinct and accounts for it. */
  lemma RemoveDistinct(grps: seq<TextBlockGroup>, k: nat)
    requires k < |grps| && Distinct(grps)
    ensures Distinct(RemoveAt(grps, k)) && multiset(RemoveAt(grps, k)) + multiset{grps[k]} == multiset(grps)
  {
    var r := RemoveAt(grps, k);
    forall i, j | 0 <= i < j < |r| ensures r[i] != r[j] {
      var i' := if i < k then i else i + 1;
      var j' := if j < k then j else j + 1;
      assert r[i] == grps[i'] && r[j] == grps[j'];
    }
  }

  /** The seeding loop: block `i` pushed into group `i`. */
  method SeedGroups(blocks: seq<DataBlock>, pulled: seq<TextBlockGroup>)
    requires |pulled| == |blocks| && Distinct(pulled)
    requires forall i :: 0 <= i < |pulled| ==> pulled[i].blocks == []
    modifies pulled
    ensures Slots(pulled) == Seeds(blocks, UidsOf(pulled))
    ensures Usages(pulled) == old(Usages(pulled))
  {
    var indx := 0;
    while indx < |blocks|
      invariant 0 <= indx <= |blocks|
      invariant forall j :: 0 <= j < indx ==> pulled[j].blocks == [blocks[j]]
      invariant forall j :: indx <= j < |pulled| ==> pulled[j].blocks == []
      invariant Usages(pulled) == old(Usages(pulled))
    {
      var grp := pulled[indx];
      grp.Push(blocks[indx]);
      indx := indx + 1;
    }
  }

  /** `current.Consume(other)` followed by `grps.RemoveAt(inGrpIndx)`. */
  method ConsumeAt(current: TextBlockGroup, grps: seq<TextBlockGroup>, k: nat, ghost c: nat)
    returns (r: Result<()>, rest: seq<TextBlockGroup>)
    requires c < |grps| && k < |grps| && Distinct(grps) && grps[c] == current && current.blocks != []
    modifies current
    ensures current.usage == old(current.usage)
    ensures r.Err? ==> k == c && r.error == InvalidOperation
    ensures r.Ok? ==>
      && k != c && rest == RemoveAt(grps, k)
      && Distinct(rest) && multiset(rest) + multiset{grps[k]} == multiset(grps)
      && Slots(rest) == Consumed(old(Slots(grps)), c, k)
  {
    ghost var before := Slots(grps);
    var other := grps[k];
    r := current.Consume(other);
    if r.Err? {
      return r, grps;
    }
    assert k != c;
    ConsumedSlots(before, Slots(grps), c, k);
    SlotsRemoveAt(grps, k);
    RemoveDistinct(grps, k);
    rest := RemoveAt(grps, k);
  }

  /**
   * One test of the inner loop: the group at `k` is skipped, rejected, or
   * consumed by the current group at `c` and removed from the list.
   */
  method TestPair(canMerge: (Slot, Slot) -> Result<bool>, skipSameUid: bool, grps: seq<TextBlockGroup>,
                  g: nat, current: TextBlockGroup, ghost c: nat, k: nat, ghost groups: seq<TextBlockGroup>,
                  ghost s: seq<Slot>)
    returns (r: Result<bool>, rest: seq<TextBlockGroup>, ghost c': nat, ghost s': seq<Slot>)
    requires c < |grps| && k < |grps| && grps[c] == current && Slots(grps) == s
    requires Distinct(grps) && NonEmpty(s) && Within(grps, groups)
    modifies current
    ensures current.usage == old(current.usage)
    ensures r.Err? ==> Absorb(canMerge, skipSameUid, s, g, c, k) == Err(r.error)
    ensures r.Ok? ==>
      && c' < |rest| && rest[c'] == current && Distinct(rest) && NonEmpty(s') && Within(rest, groups)
      && (r.value ==> |rest| == |grps| - 1 && multiset(rest) + multiset{grps[k]} == multiset(grps))
      && (!r.value ==> rest == grps)
      && Slots(rest) == s'
      && Absorb(canMerge, skipSameUid, s, g, c, k) == Absorb(canMerge, skipSameUid, s', g, c', if r.value then k else k + 1)
  {
    ghost var before := s;
    AbsorbStep(canMerge, skipSameUid, before, g, c, k);
    rest, c', s' := grps, c, s;
    if g == k {
      return Ok(false), rest, c', s';
    }
    var other := grps[k];
    if skipSameUid && current.uid == other.uid {
      return Ok(false), rest, c', s';
    }
    assert before[c] == Slot(current.uid, current.blocks) && before[k] == Slot(other.uid, other.blocks);
    var merge := canMerge(Slot(current.uid, current.blocks), Slot(other.uid, other.blocks));
    if merge.Err? {
      return Err(merge.error), rest, c', s';
    }
    if !merge.value {
      return Ok(false), rest, c', s';
    }
    var consumed;
    assert current.blocks == s[c].blocks;
    consumed, rest := ConsumeAt(current, grps, k, c);
    if consumed.Err? {
      return Err(consumed.error), rest, c', s';
    }
    c', s' := if k < c then c - 1 else c, Consumed(s, c, k);
    ConsumedNonEmpty(s, c, k);
    WithinRemoveAt(grps, k, groups);
    assert rest[c'] == grps[c];
    return Ok(true), rest, c', s';
  }

  /**
   * The state of the inner loop for the current group `grps[g]`: `rest` is
   * what is left of `grps`, `released` what it lost, `current` sits at `c`,
   * and the specification from slot `k` on still yields `target`.
   */
  ghost predicate Absorbing(canMerge: (Slot, Slot) -> Result<bool>, skipSameUid: bool, grps: seq<TextBlockGroup>,
                            groups: seq<TextBlockGroup>, g: nat, target: Result<seq<Slot>>, current: TextBlockGroup,
                            rest: seq<TextBlockGroup>, released: seq<TextBlockGroup>, c: nat, k: nat, slots: seq<Slot>)
    reads rest
  {
    && k <= |rest| <= |grps| && c < |rest| && rest[c] == current
    && Distinct(rest) && multiset(rest) + multiset(released) == multiset(grps)
    && NonEmpty(slots) && Within(rest, groups)
    && Slots(rest) == slots && Absorb(canMerge, skipSameUid, slots, g, c, k) == target
  }

  /** One turn of the inner loop: the group at `k` tested against the current group, and consumed if it merges. */
  method AbsorbTurn(canMerge: (Slot, Slot) -> Result<bool>, skipSameUid: bool, ghost grps: seq<TextBlockGroup>,
                    ghost groups: seq<TextBlockGroup>, g: nat, ghost target: Result<seq<Slot>>, current: TextBlockGroup,
                    rest: seq<TextBlockGroup>, released: seq<TextBlockGroup>, ghost c: nat, k: nat, ghost slots: seq<Slot>)
    returns (r: Result<()>, rest': seq<TextBlockGroup>, released': seq<TextBlockGroup>, ghost c': nat, k': nat,
             ghost slots': seq<Slot>)
    requires k < |rest| && Absorbing(canMerge, skipSameUid, grps, groups, g, target, current, rest, released, c, k, slots)
    modifies current
    ensures current.usage == old(current.usage)
    ensures r.Err? ==> target == Err(r.error) && |rest'| <= |grps| && multiset(rest') + multiset(released') == multiset(grps)
    ensures r.Ok? ==>
      && Absorbing(canMerge, skipSameUid, grps, groups, g, target, current, rest', released', c', k', slots')
      && (|rest'| < |rest| || (|rest'| == |rest| && k' == k + 1))
  {
    var other := rest[k];
    var merged, next, c2, s2 := TestPair(canMerge, skipSameUid, rest, g, current, c, k, groups, slots);
    if merged.Err? {
      return Err(merged.error), rest, released, c, k, slots;
    }
    TurnKeeps(canMerge, skipSameUid, grps, groups, g, target, current, rest, released, c, k, slots,
              merged.value, next, c2, s2);
    rest', c', slots' := next, c2, s2;
    if merged.value {
      released', k' := released + [other], k;
    } else {
      released', k' := released, k + 1;
    }
    r := Ok(());
  }

  /** What one turn of the inner loop yields keeps the loop's state. */
  lemma TurnKeeps(canMerge: (Slot, Slot) -> Result<bool>, skipSameUid: bool, grps: seq<TextBlockGroup>,
                  groups: seq<TextBlockGroup>, g: nat, target: Result<seq<Slot>>, current: TextBlockGroup,
                  rest: seq<TextBlockGroup>, released: seq<TextBlockGroup>, c: nat, k: nat, slots: seq<Slot>,
                  merged: bool, next: seq<TextBlockGroup>, c2: nat, s2: seq<Slot>)
    requires k < |rest| <= |grps| && multiset(rest) + multiset(released) == multiset(grps)
    requires c < |slots| && k <= |slots| && c2 < |s2| && (if merged then k else k + 1) <= |s2|
    requires Absorb(canMerge, skipSameUid, slots, g, c, k) == target
    requires c2 < |next| && next[c2] == current && Distinct(next) && NonEmpty(s2) && Within(next, groups)
    requires merged ==> |next| == |rest| - 1 && multiset(next) + multiset{rest[k]} == multiset(rest)
    requires !merged ==> next == rest
    requires Slots(next) == s2
    requires Absorb(canMerge, skipSameUid, slots, g, c, k) == Absorb(canMerge, skipSameUid, s2, g, c2, if merged then k else k + 1)
    ensures Absorbing(canMerge, skipSameUid, grps, groups, g, target, current, next,
                      if merged then released + [rest[k]] else released, c2, if merged then k else k + 1, s2)
  {
    if merged {
      assert multiset(released + [rest[k]]) == multiset(released) + multiset{rest[k]};
    }
  }

  /** The inner loop for the current group `grps[g]`: every group of the list tested against it. */
  method AbsorbInto(canMerge: (Slot, Slot) -> Result<bool>, skipSameUid: bool, grps: seq<TextBlockGroup>,
                    g: nat, ghost groups: seq<TextBlockGroup>)
    returns (r: Result<()>, rest: seq<TextBlockGroup>, released: seq<TextBlockGroup>)
    requires g < |grps| && Distinct(grps) && NonEmpty(Slots(grps)) && Within(grps, groups)
    modifies grps[g]
    ensures grps[g].usage == old(grps[g].usage)
    ensures |rest| <= |grps| && multiset(rest) + multiset(released) == multiset(grps)
    ensures r.Err? ==> old(Absorb(canMerge, skipSameUid, Slots(grps), g, g, 0)) == Err(r.error)
    ensures r.Ok? ==>
      && Distinct(rest) && NonEmpty(Slots(rest)) && Within(rest, groups)
      && old(Absorb(canMerge, skipSameUid, Slots(grps), g, g, 0))
         == (if g + 1 < |rest| then Absorb(canMerge, skipSameUid, Slots(rest), g + 1, g + 1, 0) else Ok(Slots(rest)))
  {
    ghost var target := Absorb(canMerge, skipSameUid, Slots(grps), g, g, 0);
    var current := grps[g];
    ghost var c: nat := g;
    ghost var slots := Slots(grps);
    rest, released := grps, [];
    var inGrpIndx: nat := 0;
    while inGrpIndx < |rest|
      invariant Absorbing(canMerge, skipSameUid, grps, groups, g, target, current, rest, released, c, inGrpIndx, slots)
      invariant current.usage == old(current.usage)
      decreases |rest|, |rest| - inGrpIndx
    {
      var turn, rest', released', c', k', slots' :=
        AbsorbTurn(canMerge, skipSameUid, grps, groups, g, target, current, rest, released, c, inGrpIndx, slots);
      if turn.Err? {
        return turn, rest', released';
      }
      rest, released, c, inGrpIndx, slots := rest', released', c', k', slots';
    }
    AbsorbEnd(canMerge, skipSameUid, slots, g, c);
    return Ok(()), rest, released;
  }

  /**
   * The nested loops: every surviving group, in turn the current one, consumes
   * each later-tested group the predicate accepts, which is removed and
   * handed back.
   */
  method AbsorbGroups(canMerge: (Slot, Slot) -> Result<bool>, skipSameUid: bool, groups: seq<TextBlockGroup>)
    returns (r: Result<()>, grps: seq<TextBlockGroup>, released: seq<TextBlockGroup>)
    requires |groups| >= 1 && Distinct(groups) && NonEmpty(Slots(groups))
    modifies groups
    ensures Usages(groups) == old(Usages(groups))
    ensures multiset(grps) + multiset(released) == multiset(groups)
    ensures r.Ok? ==> old(Absorb(canMerge, skipSameUid, Slots(groups), 0, 0, 0)) == Ok(Slots(grps))
    ensures r.Err? ==> old(Absorb(canMerge, skipSameUid, Slots(groups), 0, 0, 0)) == Err(r.error)
  {
    ghost var target := Absorb(canMerge, skipSameUid, Slots(groups), 0, 0, 0);
    grps := groups;
    released := [];
    var grpIndx := 0;
    while grpIndx < |grps|
      invariant 0 <= grpIndx
      invariant Distinct(grps) && multiset(grps) + multiset(released) == multiset(groups)
      invariant NonEmpty(Slots(grps)) && Within(grps, groups) && Usages(groups) == old(Usages(groups))
      invariant grpIndx < |grps| ==> Absorb(canMerge, skipSameUid, Slots(grps), grpIndx, grpIndx, 0) == target
      invariant grpIndx >= |grps| ==> Ok(Slots(grps)) == target
      decreases |grps| - grpIndx
    {
      var absorbed, rest, gone := AbsorbInto(canMerge, skipSameUid, grps, grpIndx, groups);
      if absorbed.Err? {
        return Err(absorbed.error), rest, released + gone;
      }
      grps := rest;
      released := released + gone;
      grpIndx := grpIndx + 1;
    }
    return Ok(()), grps, released;
  }

  /** One group per block, then the nested loops. */
  method SeedAndAbsorb(canMerge: (Slot, Slot) -> Result<bool>, skipSameUid: bool,
                       blocks: seq<DataBlock>, pulled: seq<TextBlockGroup>)
    returns (r: Result<()>, grps: seq<TextBlockGroup>, released: seq<TextBlockGroup>)
    requires |pulled| == |blocks| >= 1 && Distinct(pulled)
    requires forall i :: 0 <= i < |pulled| ==> pulled[i].blocks == []
    modifies pulled
    ensures Usages(pulled) == old(Usages(pulled))
    ensures multiset(grps) + multiset(released) == multiset(pulled)
    ensures r.Ok? ==> Absorb(canMerge, skipSameUid, Seeds(blocks, UidsOf(pulled)), 0, 0, 0) == Ok(Slots(grps))
    ensures r.Err? ==> Absorb(canMerge, skipSameUid, Seeds(blocks, UidsOf(pulled)), 0, 0, 0) == Err(r.error)
  {
    SeedGroups(blocks, pulled);
    SeedsNonEmpty(blocks, UidsOf(pulled));
    r, grps, released := AbsorbGroups(canMerge, skipSameUid, pulled);
  }

  /** `grps.Select(g => customCompile?.Invoke(g) ?? g.Compile()).ToArray()`. */
  method CompileGroups(customCompile: Option<Slot -> Option<DataBlock>>, grps: seq<TextBlockGroup>)
    returns (r: Result<seq<DataBlock>>)
    ensures r == CompileAll(customCompile, Slots(grps))
  {
    var compiled: seq<DataBlock> := [];
    var j := 0;
    while j < |grps|
      invariant 0 <= j <= |grps|
      invariant CompileAll(customCompile, Slots(grps)[..j]) == Ok(compiled)
    {
      var b := CompileOne(customCompile, Slot(grps[j].uid, grps[j].blocks));
      assert Slots(grps)[..j + 1][..j] == Slots(grps)[..j];
      if b.Err? {
        return Err(b.error);
      }
      compiled := compiled + [b.value];
      j := j + 1;
    }
    assert Slots(grps)[..j] == Slots(grps);
    return Ok(compiled);
  }

  /**
   * `DataTextBlockGroupBaseStrategy.Merge` over the groups `pulled` for it:
   * the result is the spec's, and every pulled group is handed back exactly
   * once, whether the merge returns or throws.
   */
  method Merge(canMerge: (Slot, Slot) -> Result<bool>, skipSameUid: bool,
               customCompile: Option<Slot -> Option<DataBlock>>,
               blocks: seq<DataBlock>, pulled: seq<TextBlockGroup>)
    returns (r: Result<seq<DataBlock>>, released: seq<TextBlockGroup>)
    requires |pulled| == (if |blocks| < 2 then 0 else |blocks|)
    requires Distinct(pulled)
    requires forall i :: 0 <= i < |pulled| ==> pulled[i].blocks == []
    modifies pulled
    ensures |blocks| < 2 ==> r == Ok(blocks) && released == []
    ensures |blocks| >= 2 ==> r == GroupMergeSpec(canMerge, skipSameUid, customCompile, blocks, UidsOf(pulled))
    ensures multiset(released) == multiset(pulled)
    ensures Usages(pulled) == old(Usages(pulled))
  {
    if |blocks| < 2 {
      return Ok(blocks), [];
    }
    var absorbed, grps, others := SeedAndAbsorb(canMerge, skipSameUid, blocks, pulled);
    if absorbed.Err? {
      return Err(absorbed.error), others + grps;
    }
    r := CompileGroups(customCompile, grps);
    released := others + grps;
  }
}
