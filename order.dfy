/**
 * `PrepateBlocks` of the horizontal and vertical sibling strategies:
 * `OrderBy(t => t.Area.Y).ThenBy(t => t.Area.X)`, a stable sort.
 */
module Order {
  import opened Blocks

  /** `a` may come before `b`: smaller Y, or the same Y and an X no larger. */
  predicate PositionLe(a: DataBlock, b: DataBlock)
  {
    a.area.Y() < b.area.Y() || (a.area.Y() == b.area.Y() && a.area.X() <= b.area.X())
  }

  predicate SortedByPosition(s: seq<DataBlock>)
  {
    forall i, j :: 0 <= i < j < |s| ==> PositionLe(s[i], s[j])
  }

  /** Inserts `x` before the first element it may precede, so it stays ahead of equal positions. */
  function Insert(x: DataBlock, s: seq<DataBlock>): (r: seq<DataBlock>)
    requires SortedByPosition(s)
    ensures SortedByPosition(r)
    ensures multiset(r) == multiset{x} + multiset(s)
    ensures |r| == |s| + 1
  {
    if s == [] || PositionLe(x, s[0]) then
      [x] + s
    else
      var t := Insert(x, s[1..]);
      assert s == [s[0]] + s[1..];
      LeadsAll(s, x, t);
      ConsSorted(s[0], t);
      [s[0]] + t
  }

  /** The head of a sorted sequence that may precede `x` may precede every element of `x` inserted in its tail. */
  lemma LeadsAll(s: seq<DataBlock>, x: DataBlock, t: seq<DataBlock>)
    requires s != [] && SortedByPosition(s) && PositionLe(s[0], x)
    requires multiset(t) == multiset{x} + multiset(s[1..])
    ensures forall j :: 0 <= j < |t| ==> PositionLe(s[0], t[j])
  {
    forall j | 0 <= j < |t| ensures PositionLe(s[0], t[j]) {
      assert t[j] in multiset(t);
      if t[j] != x {
        assert t[j] in multiset(s[1..]);
        var k :| 0 <= k < |s[1..]| && s[1..][k] == t[j];
        assert s[k + 1] == t[j];
      }
    }
  }

  /** A sorted sequence stays sorted behind a head that may precede all of it. */
  lemma ConsSorted(h: DataBlock, t: seq<DataBlock>)
    requires SortedByPosition(t) && forall j :: 0 <= j < |t| ==> PositionLe(h, t[j])
    ensures SortedByPosition([h] + t)
  {
    var r := [h] + t;
    forall a, b | 0 <= a < b < |r| ensures PositionLe(r[a], r[b]) {
      if a == 0 { assert r[b] == t[b - 1]; } else { assert r[a] == t[a - 1] && r[b] == t[b - 1]; }
    }
  }

  /** The blocks of `s` ordered by Y, then X, keeping the input order among equal positions. */
  function SortByPosition(s: seq<DataBlock>): (r: seq<DataBlock>)
    ensures SortedByPosition(r)
    ensures multiset(r) == multiset(s)
    ensures |r| == |s|
  {
    if s == [] then []
    else
      assert s == [s[0]] + s[1..];
      Insert(s[0], SortByPosition(s[1..]))
  }

  /** A sorted sequence is its own ordering. */
  lemma {:induction false} SortSorted(s: seq<DataBlock>)
    requires SortedByPosition(s)
    ensures SortByPosition(s) == s
  {
    if s != [] {
      assert SortedByPosition(s[1..]);
      SortSorted(s[1..]);
      assert s == [s[0]] + s[1..];
    }
  }
}
