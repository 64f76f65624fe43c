/**
 * The array vocabulary shared by the k-point routines: three-component rows,
 * squared Euclidean distance (what a ball query of radius r compares with r*r),
 * and numpy's boolean selection `np.where(mask)` followed by fancy indexing.
 */
module Arrays {

  /** One row of a k-point array (crystal or Cartesian coordinates). */
  datatype Vec3 = Vec3(x: real, y: real, z: real)

  function Add(a: Vec3, b: Vec3): Vec3 {
    Vec3(a.x + b.x, a.y + b.y, a.z + b.z)
  }

  function Scale(a: Vec3, d: real): Vec3 {
    Vec3(a.x * d, a.y * d, a.z * d)
  }

  function Sq(x: real): real {
    x * x
  }

  /** Squared Euclidean distance. */
  function SqDist(a: Vec3, b: Vec3): real {
    Sq(a.x - b.x) + Sq(a.y - b.y) + Sq(a.z - b.z)
  }

  /** `b` lies in the closed ball of radius `r` around `a`. */
  predicate WithinRadius(a: Vec3, b: Vec3, r: real) {
    SqDist(a, b) <= Sq(r)
  }

  predicate StrictlyIncreasing(idx: seq<nat>) {
    forall i, j :: 0 <= i < j < |idx| ==> idx[i] < idx[j]
  }

  /** `np.where(mask)` on a one-dimensional mask: the positions holding true, in increasing order. */
  function Where(mask: seq<bool>): (idx: seq<nat>)
    ensures StrictlyIncreasing(idx)
    ensures forall m :: 0 <= m < |idx| ==> idx[m] < |mask|
    ensures forall k :: 0 <= k < |mask| ==> (mask[k] <==> k in idx)
  {
    if mask == [] then []
    else
      var n := |mask| - 1;
      var front := Where(mask[..n]);
      assert forall k :: 0 <= k < n ==> mask[..n][k] == mask[k];
      front + (if mask[n] then [n] else [])
  }

  /** Fancy indexing `rows[idx]`. */
  function Take<T>(rows: seq<T>, idx: seq<nat>): seq<T>
    requires forall m :: 0 <= m < |idx| ==> idx[m] < |rows|
  {
    seq(|idx|, m requires 0 <= m < |idx| => rows[idx[m]])
  }

  /**
   * `out` is the subsequence of `rows` at the positions where `mask` holds,
   * in the order of `rows`.
   */
  ghost predicate SelectedInOrder<T>(out: seq<T>, rows: seq<T>, mask: seq<bool>) {
    |mask| == |rows| &&
    exists idx: seq<nat> ::
      && StrictlyIncreasing(idx)
      && (forall m :: 0 <= m < |idx| ==> idx[m] < |rows|)
      && (forall k :: 0 <= k < |mask| ==> (mask[k] <==> k in idx))
      && out == Take(rows, idx)
  }

  /** Selecting through `np.where` is a selection in order. */
  lemma WhereSelects<T>(rows: seq<T>, mask: seq<bool>)
    requires |mask| == |rows|
    ensures SelectedInOrder(Take(rows, Where(mask)), rows, mask)
  {
    var idx := Where(mask);
    assert StrictlyIncreasing(idx);
  }

  /**
   * Two strictly increasing index lists with the same members are equal; so the
   * selection described by `SelectedInOrder` is unique.
   */
  lemma {:induction false} IncreasingIndicesUnique(a: seq<nat>, b: seq<nat>)
    requires StrictlyIncreasing(a) && StrictlyIncreasing(b)
    requires forall k :: k in a <==> k in b
    ensures a == b
  {
    if a != [] { assert a[0] in b; }
    if b != [] { assert b[0] in a; }
    if a != [] && b != [] {
      assert a[0] == b[0] by {
        assert b[0] in a;
        assert a[0] in b;
      }
      assert forall k :: k in a[1..] <==> k in b[1..] by {
        forall k
          ensures k in a[1..] <==> k in b[1..]
        {
          if k in a[1..] {
            assert k != a[0];
            assert k in b;
          }
          if k in b[1..] {
            assert k != b[0];
            assert k in a;
          }
        }
      }
      IncreasingIndicesUnique(a[1..], b[1..]);
      assert a == [a[0]] + a[1..];
      assert b == [b[0]] + b[1..];
    }
  }

  lemma SelectionIsUnique<T>(out1: seq<T>, out2: seq<T>, rows: seq<T>, mask: seq<bool>)
    requires SelectedInOrder(out1, rows, mask) && SelectedInOrder(out2, rows, mask)
    ensures out1 == out2
  {
    var i1: seq<nat> :| StrictlyIncreasing(i1) && (forall m :: 0 <= m < |i1| ==> i1[m] < |rows|)
      && (forall k :: 0 <= k < |mask| ==> (mask[k] <==> k in i1)) && out1 == Take(rows, i1);
    var i2: seq<nat> :| StrictlyIncreasing(i2) && (forall m :: 0 <= m < |i2| ==> i2[m] < |rows|)
      && (forall k :: 0 <= k < |mask| ==> (mask[k] <==> k in i2)) && out2 == Take(rows, i2);
    forall k
      ensures k in i1 <==> k in i2
    {
      if k in i1 {
        var m :| 0 <= m < |i1| && i1[m] == k;
      }
      if k in i2 {
        var m :| 0 <= m < |i2| && i2[m] == k;
      }
    }
    IncreasingIndicesUnique(i1, i2);
  }

  /** The rows of a selection in order are exactly the rows at the positions the mask picks. */
  lemma SelectedMembers<T>(out: seq<T>, rows: seq<T>, mask: seq<bool>, v: T)
    requires SelectedInOrder(out, rows, mask)
    ensures v in out <==> exists k :: 0 <= k < |rows| && mask[k] && rows[k] == v
  {
    var idx: seq<nat> :| StrictlyIncreasing(idx) && (forall m :: 0 <= m < |idx| ==> idx[m] < |rows|)
      && (forall k :: 0 <= k < |mask| ==> (mask[k] <==> k in idx)) && out == Take(rows, idx);
    if v in out {
      var j :| 0 <= j < |out| && out[j] == v;
      assert idx[j] in idx;
      assert mask[idx[j]] && rows[idx[j]] == v;
    }
    if exists k :: 0 <= k < |rows| && mask[k] && rows[k] == v {
      var k :| 0 <= k < |rows| && mask[k] && rows[k] == v;
      var j :| 0 <= j < |idx| && idx[j] == k;
      assert out[j] == v;
    }
  }

  // ---------------------------------------------------------------------------
  // Ball queries (`KDTree.query_ball_tree`), specified by distance alone
  // ---------------------------------------------------------------------------

  /**
   * One entry of `tree.query_ball_tree(other, r)`: the positions of `others`
   * within radius `r` of `p`. The callers only test whether an entry is empty,
   * so the positions are listed in increasing order.
   */
  function BallQuery(p: Vec3, others: seq<Vec3>, r: real): (hits: seq<nat>)
    ensures forall m :: 0 <= m < |hits| ==> hits[m] < |others|
    ensures forall k :: 0 <= k < |others| ==> (k in hits <==> WithinRadius(p, others[k], r))
    ensures hits == [] <==> forall k :: 0 <= k < |others| ==> !WithinRadius(p, others[k], r)
  {
    var mask := seq(|others|, k requires 0 <= k < |others| => WithinRadius(p, others[k], r));
    var hits := Where(mask);
    assert hits != [] ==> hits[0] in hits && mask[hits[0]];
    hits
  }

  /** `KDTree(points).query_ball_tree(KDTree(others), r)`: one entry per row of `points`. */
  function QueryBallTree(points: seq<Vec3>, others: seq<Vec3>, r: real): (q: seq<seq<nat>>)
    ensures |q| == |points|
  {
    seq(|points|, i requires 0 <= i < |points| => BallQuery(points[i], others, r))
  }

  /** A tree queried against itself finds every point: its own distance is 0. */
  lemma SelfQueryHits(points: seq<Vec3>, r: real)
    ensures forall i :: 0 <= i < |points| ==> QueryBallTree(points, points, r)[i] != []
  {
    forall i | 0 <= i < |points|
      ensures QueryBallTree(points, points, r)[i] != []
    {
      assert SqDist(points[i], points[i]) == 0.0;
      assert Sq(r) >= 0.0;
      assert WithinRadius(points[i], points[i], r);
    }
  }

  /** A mask of all-false selects nothing. */
  lemma {:induction false} WhereNone(mask: seq<bool>)
    requires forall k :: 0 <= k < |mask| ==> !mask[k]
    ensures Where(mask) == []
  {
    if mask != [] {
      var n := |mask| - 1;
      WhereNone(mask[..n]);
      assert Where(mask) == Where(mask[..n]);
    }
  }

  /** A mask of all-true selects every position, in order. */
  lemma {:induction false} WhereAll(mask: seq<bool>)
    requires forall k :: 0 <= k < |mask| ==> mask[k]
    ensures Where(mask) == seq(|mask|, k requires 0 <= k < |mask| => k)
  {
    if mask != [] {
      var n := |mask| - 1;
      WhereAll(mask[..n]);
      assert Where(mask) == Where(mask[..n]) + [n];
    }
  }
}
