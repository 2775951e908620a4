/** List operations the extractor borrows from LINQ and `List<T>`. */
module Seqs {

  /** `List<T>.RemoveAt(j)`. */
  function RemoveAt<T>(s: seq<T>, j: nat): (r: seq<T>)
    requires j < |s|
    ensures |r| == |s| - 1
    ensures forall k :: 0 <= k < j ==> r[k] == s[k]
    ensures forall k :: j <= k < |r| ==> r[k] == s[k + 1]
    ensures multiset(r) + multiset{s[j]} == multiset(s)
  {
    assert s == s[..j] + [s[j]] + s[j + 1..];
    s[..j] + s[j + 1..]
  }

  /**
   * `Enumerable.Distinct` under the equality `eq`: the first element of each
   * class of equal elements is kept, in its original position order.
   */
  function DistinctWith<T>(s: seq<T>, eq: (T, T) -> bool): (r: seq<T>)
    ensures |r| <= |s|
    ensures forall x :: x in r ==> x in s
    ensures forall a, b :: 0 <= a < b < |r| ==> !eq(r[a], r[b])
    ensures forall x :: x in s ==> x in r || exists k :: 0 <= k < |r| && eq(r[k], x)
    decreases |s|
  {
    if s == [] then []
    else
      var r := DistinctWith(s[..|s| - 1], eq);
      var x := s[|s| - 1];
      assert forall y :: y in s[..|s| - 1] ==> y in s;
      assert forall y :: y in s ==> y in s[..|s| - 1] || y == x by {
        forall y | y in s ensures y in s[..|s| - 1] || y == x {
          var k :| 0 <= k < |s| && s[k] == y;
          if k < |s| - 1 { assert s[..|s| - 1][k] == y; }
        }
      }
      if exists k :: 0 <= k < |r| && eq(r[k], x) then r
      else
        var r' := r + [x];
        assert forall y :: y in s ==> y in r' || exists k :: 0 <= k < |r'| && eq(r'[k], y) by {
          forall y | y in s ensures y in r' || exists k :: 0 <= k < |r'| && eq(r'[k], y) {
            if y != x && y !in r {
              var k :| 0 <= k < |r| && eq(r[k], y);
              assert r'[k] == r[k];
            }
          }
        }
        r'
  }

  /** `r` is `s` read at the strictly increasing positions `idx`: a subsequence of `s`, in `s`'s order. */
  ghost predicate PicksAt<T>(r: seq<T>, s: seq<T>, idx: seq<int>)
  {
    && |idx| == |r|
    && (forall k :: 0 <= k < |idx| ==> 0 <= idx[k] < |s| && r[k] == s[idx[k]])
    && (forall a, b :: 0 <= a < b < |idx| ==> idx[a] < idx[b])
  }

  /** No element before position `i` of `s` is equal to `s[i]` under `eq`. */
  ghost predicate FirstAt<T>(s: seq<T>, i: int, eq: (T, T) -> bool)
  {
    0 <= i < |s| && forall j :: 0 <= j < i ==> !eq(s[j], s[i])
  }

  /**
   * The reference for `Distinct`: the elements of `s` that no earlier
   * element equals, in `s`'s order.
   */
  ghost function Firsts<T>(s: seq<T>, eq: (T, T) -> bool): seq<T>
    decreases |s|
  {
    if s == [] then []
    else
      var init, x := s[..|s| - 1], s[|s| - 1];
      Firsts(init, eq) + if forall j :: 0 <= j < |s| - 1 ==> !eq(s[j], x) then [x] else []
  }

  /**
   * `Firsts` reads `s` at increasing positions, each holding the first
   * element of its class, and misses no such position.
   */
  lemma FirstsKeepsFirsts<T>(s: seq<T>, eq: (T, T) -> bool) returns (idx: seq<int>)
    ensures PicksAt(Firsts(s, eq), s, idx)
    ensures forall k :: 0 <= k < |idx| ==> FirstAt(s, idx[k], eq)
    ensures forall i :: FirstAt(s, i, eq) ==> s[i] in Firsts(s, eq)
  {
    idx := FirstsPositions(s, eq);
    FirstsComplete(s, eq);
  }

  /** The positions `Firsts` reads, in increasing order, each the first of its class. */
  lemma {:induction false} FirstsPositions<T>(s: seq<T>, eq: (T, T) -> bool) returns (idx: seq<int>)
    ensures PicksAt(Firsts(s, eq), s, idx)
    ensures forall k :: 0 <= k < |idx| ==> FirstAt(s, idx[k], eq)
    decreases |s|
  {
    if s == [] {
      return [];
    }
    var init, x := s[..|s| - 1], s[|s| - 1];
    var r0 := Firsts(init, eq);
    var idx0 := FirstsPositions(init, eq);
    FirstAtPrefix(s, |s| - 1, eq);
    PicksWiden(r0, s, |s| - 1, idx0);
    var keep := forall j :: 0 <= j < |s| - 1 ==> !eq(s[j], x);
    if keep {
      assert Firsts(s, eq) == r0 + [x];
      PicksAppend(r0, s, idx0, |s| - 1);
      idx := idx0 + [|s| - 1];
    } else {
      assert Firsts(s, eq) == r0;
      idx := idx0;
    }
    forall k | 0 <= k < |idx| ensures FirstAt(s, idx[k], eq) {
      if k < |idx0| {
        assert idx[k] == idx0[k] < |init| && FirstAt(init, idx0[k], eq);
      }
    }
  }

  /** Every element that no earlier element equals is in `Firsts`. */
  lemma {:induction false} FirstsComplete<T>(s: seq<T>, eq: (T, T) -> bool)
    ensures forall i :: FirstAt(s, i, eq) ==> s[i] in Firsts(s, eq)
    decreases |s|
  {
    if s != [] {
      var init, x := s[..|s| - 1], s[|s| - 1];
      var r0 := Firsts(init, eq);
      FirstsComplete(init, eq);
      FirstAtPrefix(s, |s| - 1, eq);
      var keep := forall j :: 0 <= j < |s| - 1 ==> !eq(s[j], x);
      var r := Firsts(s, eq);
      assert r == r0 + if keep then [x] else [];
      forall i | FirstAt(s, i, eq) ensures s[i] in r {
        if i < |init| {
          assert FirstAt(init, i, eq);
          assert init[i] in r0 && init[i] == s[i];
        } else {
          assert i == |s| - 1 && s[i] == x;
          assert keep;
        }
      }
    }
  }

  /** Positions picked in a prefix of `s` are positions picked in `s`, all before the prefix's end. */
  lemma PicksWiden<T>(r: seq<T>, s: seq<T>, n: nat, idx: seq<int>)
    requires n <= |s| && PicksAt(r, s[..n], idx)
    ensures PicksAt(r, s, idx) && forall k :: 0 <= k < |idx| ==> idx[k] < n
  {
  }

  /** Picking one more position, after all the others, extends the subsequence by that element. */
  lemma PicksAppend<T>(r: seq<T>, s: seq<T>, idx: seq<int>, n: nat)
    requires n < |s| && PicksAt(r, s, idx) && forall k :: 0 <= k < |idx| ==> idx[k] < n
    ensures PicksAt(r + [s[n]], s, idx + [n])
  {
  }

  /** Whether a position holds the first of its class depends only on what comes up to it. */
  lemma FirstAtPrefix<T>(s: seq<T>, n: nat, eq: (T, T) -> bool)
    requires n <= |s|
    ensures forall i :: 0 <= i < n ==> (FirstAt(s[..n], i, eq) <==> FirstAt(s, i, eq))
  {
    forall i | 0 <= i < n ensures FirstAt(s[..n], i, eq) <==> FirstAt(s, i, eq) {
      assert forall j :: 0 <= j <= i ==> s[..n][j] == s[j];
    }
  }

  /**
   * For a transitive equality, `Distinct` keeps exactly the first element of
   * each class of equal elements, in the input's order.
   */
  lemma {:induction false} DistinctWithIsFirsts<T>(s: seq<T>, eq: (T, T) -> bool)
    requires forall a, b, c :: eq(a, b) && eq(b, c) ==> eq(a, c)
    ensures DistinctWith(s, eq) == Firsts(s, eq)
    decreases |s|
  {
    if s != [] {
      var init, x := s[..|s| - 1], s[|s| - 1];
      DistinctWithIsFirsts(init, eq);
      var r := DistinctWith(init, eq);
      CoveredIffEarlier(init, r, x, eq);
      assert forall j :: 0 <= j < |init| ==> init[j] == s[j];
    }
  }

  /**
   * When every element of `init` is kept in `r` or equal to a kept one, some
   * kept element equals `x` exactly when some element of `init` does.
   */
  lemma CoveredIffEarlier<T>(init: seq<T>, r: seq<T>, x: T, eq: (T, T) -> bool)
    requires forall a, b, c :: eq(a, b) && eq(b, c) ==> eq(a, c)
    requires forall y :: y in r ==> y in init
    requires forall y :: y in init ==> y in r || exists k :: 0 <= k < |r| && eq(r[k], y)
    ensures (exists k :: 0 <= k < |r| && eq(r[k], x)) <==> exists j :: 0 <= j < |init| && eq(init[j], x)
  {
    if exists k :: 0 <= k < |r| && eq(r[k], x) {
      var k :| 0 <= k < |r| && eq(r[k], x);
      assert r[k] in init;
      var j :| 0 <= j < |init| && init[j] == r[k];
    }
    if exists j :: 0 <= j < |init| && eq(init[j], x) {
      var j :| 0 <= j < |init| && eq(init[j], x);
      assert init[j] in init;
      if init[j] in r {
        var k :| 0 <= k < |r| && r[k] == init[j];
        assert eq(r[k], x);
      } else {
        var k :| 0 <= k < |r| && eq(r[k], init[j]);
        assert eq(r[k], init[j]) && eq(init[j], x) ==> eq(r[k], x);
      }
    }
  }

  /** Two values are equal: the default equality as a function value. */
  predicate Equal<T(==)>(a: T, b: T)
  {
    a == b
  }

  /** `Enumerable.Distinct` with the default equality. */
  function Distinct<T(==)>(s: seq<T>): (r: seq<T>)
    ensures |r| <= |s|
    ensures forall x :: x in r ==> x in s
    ensures forall x :: x in s ==> x in r
    ensures forall a, b :: 0 <= a < b < |r| ==> r[a] != r[b]
    ensures r == Firsts(s, Equal)
  {
    var r := DistinctWith(s, Equal);
    DistinctWithIsFirsts(s, Equal);
    assert forall x :: x in s ==> x in r by {
      forall x | x in s ensures x in r {
        if exists k :: 0 <= k < |r| && r[k] == x {
          var k :| 0 <= k < |r| && r[k] == x;
          assert r[k] in r;
        }
      }
    }
    r
  }

  /** A sequence without duplicates is left unchanged by `Distinct`. */
  lemma {:induction false} DistinctOfDistinct<T>(s: seq<T>)
    requires forall a, b :: 0 <= a < b < |s| ==> s[a] != s[b]
    ensures Distinct(s) == s
    decreases |s|
  {
    if s != [] {
      var s' := s[..|s| - 1];
      DistinctOfDistinct(s');
      assert DistinctWith(s', Equal) == s';
      assert !(exists k :: 0 <= k < |s'| && s'[k] == s[|s| - 1]);
      assert s' + [s[|s| - 1]] == s;
    }
  }

  /** `Enumerable.Where`. */
  function Filter<T>(s: seq<T>, p: T -> bool): (r: seq<T>)
    ensures |r| <= |s|
    ensures forall x :: x in r ==> x in s && p(x)
    ensures forall x :: x in s && p(x) ==> x in r
    decreases |s|
  {
    if s == [] then []
    else
      assert forall y :: y in s ==> y == s[0] || y in s[1..];
      assert forall y :: y in s[1..] ==> y in s;
      (if p(s[0]) then [s[0]] else []) + Filter(s[1..], p)
  }

  /** `Where` over concatenated lists is the concatenation of the two selections, so it keeps the order and the repeats. */
  lemma {:induction false} FilterAppend<T>(a: seq<T>, b: seq<T>, p: T -> bool)
    ensures Filter(a + b, p) == Filter(a, p) + Filter(b, p)
    decreases |a|
  {
    if a == [] {
      assert a + b == b;
    } else {
      assert (a + b)[0] == a[0] && (a + b)[1..] == a[1..] + b;
      FilterAppend(a[1..], b, p);
    }
  }

  /** `Where` on one element keeps it exactly when it satisfies the predicate. */
  lemma FilterOne<T>(x: T, p: T -> bool)
    ensures Filter([x], p) == if p(x) then [x] else []
  {
    assert [x][1..] == [];
  }
}
