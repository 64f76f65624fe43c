/**
 * `merge_crossing_results`: the `found` arrays of every iteration stacked in
 * order, then reduced by `np.unique(axis=0)` to distinct rows sorted
 * lexicographically.
 */
module Crossings {
  import opened Arrays

  /** The row order `np.unique(axis=0)` sorts by: x first, then y, then z. */
  predicate LexLess(a: Vec3, b: Vec3) {
    a.x < b.x || (a.x == b.x && (a.y < b.y || (a.y == b.y && a.z < b.z)))
  }

  /** Exactly one of `a < b`, `a == b`, `b < a` holds. */
  lemma LexTrichotomy(a: Vec3, b: Vec3)
    ensures a == b || LexLess(a, b) || LexLess(b, a)
    ensures !(LexLess(a, b) && LexLess(b, a))
    ensures !LexLess(a, a)
  {
  }

  /** Strictly increasing rows: sorted and free of duplicates. */
  predicate StrictlySorted(s: seq<Vec3>) {
    forall i, j :: 0 <= i < j < |s| ==> LexLess(s[i], s[j])
  }

  /** `v` is a row of one of the arrays. */
  predicate FoundIn(v: Vec3, arrays: seq<seq<Vec3>>) {
    exists i :: 0 <= i < |arrays| && v in arrays[i]
  }

  /** `np.vstack` of the arrays in order. */
  function Concat(arrays: seq<seq<Vec3>>): (all: seq<Vec3>)
    ensures forall v :: v in all <==> FoundIn(v, arrays)
  {
    if arrays == [] then []
    else
      var n := |arrays| - 1;
      var front := Concat(arrays[..n]);
      assert forall i :: 0 <= i < n ==> arrays[..n][i] == arrays[i];
      front + arrays[n]
  }

  /** Adds `v` to a strictly sorted sequence, at its place, unless it is already there. */
  function InsertSorted(s: seq<Vec3>, v: Vec3): (r: seq<Vec3>)
    requires StrictlySorted(s)
    ensures StrictlySorted(r)
    ensures forall w :: w in r <==> w in s || w == v
  {
    if s == [] then [v]
    else if v == s[0] then s
    else if LexLess(v, s[0]) then [v] + s
    else
      LexTrichotomy(v, s[0]);
      var tail := InsertSorted(s[1..], v);
      assert forall w :: w in tail ==> LexLess(s[0], w);
      [s[0]] + tail
  }

  /** `np.unique(rows, axis=0)`: the distinct rows, in lexicographic order. */
  function Unique(rows: seq<Vec3>): (u: seq<Vec3>)
    ensures StrictlySorted(u)
    ensures forall v :: v in u <==> v in rows
  {
    if rows == [] then []
    else
      var n := |rows| - 1;
      assert rows == rows[..n] + [rows[n]];
      InsertSorted(Unique(rows[..n]), rows[n])
  }

  /** A strictly sorted sequence is determined by its members. */
  lemma {:induction false} SortedByMembers(a: seq<Vec3>, b: seq<Vec3>)
    requires StrictlySorted(a) && StrictlySorted(b)
    requires forall v :: v in a <==> v in b
    ensures a == b
    decreases |a|
  {
    if a != [] { assert a[0] in b; }
    if b != [] { assert b[0] in a; }
    if a != [] && b != [] {
      LexTrichotomy(a[0], b[0]);
      assert a[0] == b[0];
      forall v
        ensures v in a[1..] <==> v in b[1..]
      {
        if v in a[1..] {
          var k :| 1 <= k < |a| && a[k] == v;
          assert a[k] in a;
          LexTrichotomy(a[0], v);
          var k2 :| 0 <= k2 < |b| && b[k2] == v;
          assert b[1..][k2 - 1] == v;
        }
        if v in b[1..] {
          var k :| 1 <= k < |b| && b[k] == v;
          assert b[k] in b;
          LexTrichotomy(b[0], v);
          var k2 :| 0 <= k2 < |a| && a[k2] == v;
          assert a[1..][k2 - 1] == v;
        }
      }
      SortedByMembers(a[1..], b[1..]);
      assert a == [a[0]] + a[1..];
      assert b == [b[0]] + b[1..];
    }
  }

  /** The merged crossings of a run: all `found` rows, deduplicated and sorted. */
  function Merged(founds: seq<seq<Vec3>>): seq<Vec3> {
    Unique(Concat(founds))
  }

  /**
   * `merge_crossing_results`: stacks the `found` arrays one by one onto an
   * empty (0, 3) array, then applies `np.unique`.
   */
  method MergeCrossingResults(founds: seq<seq<Vec3>>) returns (crossings: seq<Vec3>)
    ensures crossings == Merged(founds)
    ensures StrictlySorted(crossings)
    ensures forall v :: v in crossings <==> FoundIn(v, founds)
  {
    var merge: seq<Vec3> := [];
    var i := 0;
    while i < |founds|
      invariant 0 <= i <= |founds|
      invariant merge == Concat(founds[..i])
    {
      assert founds[..i + 1][..i] == founds[..i];
      merge := merge + founds[i];
      i := i + 1;
    }
    assert founds[..i] == founds;
    crossings := Unique(merge);
  }

  /** The merge depends only on which rows were found, not on how or in which iteration. */
  lemma MergedByMembers(a: seq<seq<Vec3>>, b: seq<seq<Vec3>>)
    requires forall v :: FoundIn(v, a) <==> FoundIn(v, b)
    ensures Merged(a) == Merged(b)
  {
    SortedByMembers(Merged(a), Merged(b));
  }

  /** Merging is order-independent: swapping two groups of iterations changes nothing. */
  lemma MergedCommutes(a: seq<seq<Vec3>>, b: seq<seq<Vec3>>)
    ensures Merged(a + b) == Merged(b + a)
  {
    forall v
      ensures FoundIn(v, a + b) <==> FoundIn(v, b + a)
    {
      if FoundIn(v, a + b) {
        var i :| 0 <= i < |a + b| && v in (a + b)[i];
        if i < |a| {
          assert (b + a)[|b| + i] == a[i];
        } else {
          assert (b + a)[i - |a|] == b[i - |a|];
        }
      }
      if FoundIn(v, b + a) {
        var j :| 0 <= j < |b + a| && v in (b + a)[j];
        if j < |b| {
          assert (a + b)[|a| + j] == b[j];
        } else {
          assert (a + b)[j - |b|] == a[j - |b|];
        }
      }
    }
    MergedByMembers(a + b, b + a);
  }

  /** Merging a merged result again leaves it unchanged. */
  lemma MergedIdempotent(founds: seq<seq<Vec3>>)
    ensures Merged([Merged(founds)]) == Merged(founds)
  {
    var m := Merged(founds);
    assert forall v :: v in Concat([m]) <==> v in m by {
      forall v
        ensures v in Concat([m]) <==> v in m
      {
        assert [m][0] == m;
      }
    }
    SortedByMembers(Merged([m]), m);
  }
}
