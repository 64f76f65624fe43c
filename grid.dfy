/**
 * The k-point grid routines of the crossing search: the dimensionality of a
 * Monkhorst-Pack mesh and the local cubic grids laid around low-gap points.
 */
module Grid {
  import opened Wrappers
  import opened Arrays

  // ---------------------------------------------------------------------------
  // Mesh dimensionality
  // ---------------------------------------------------------------------------

  /**
   * Number of per-axis mesh counts that differ from 1. A count of 0 also
   * counts, and a mesh of all ones has dimensionality 0.
   */
  function Dimensionality(mesh: seq<int>): (dim: nat)
    ensures dim <= |mesh|
    ensures dim == 0 <==> forall i :: 0 <= i < |mesh| ==> mesh[i] == 1
    ensures dim == |mesh| <==> forall i :: 0 <= i < |mesh| ==> mesh[i] != 1
  {
    if mesh == [] then 0
    else
      var n := |mesh| - 1;
      assert forall i :: 0 <= i < n ==> mesh[..n][i] == mesh[i];
      Dimensionality(mesh[..n]) + (if mesh[n] != 1 then 1 else 0)
  }

  /** The dimensionality is the number of axes whose count is not 1. */
  lemma {:induction false} DimensionalityCountsAxes(mesh: seq<int>)
    ensures Dimensionality(mesh) == |set i | 0 <= i < |mesh| && mesh[i] != 1|
  {
    if mesh != [] {
      var n := |mesh| - 1;
      DimensionalityCountsAxes(mesh[..n]);
      var front := set i | 0 <= i < n && mesh[..n][i] != 1;
      var all := set i | 0 <= i < |mesh| && mesh[i] != 1;
      if mesh[n] != 1 {
        assert all == front + {n};
      } else {
        assert all == front;
      }
    }
  }

  lemma DimensionalityExamples()
    ensures Dimensionality([6, 6, 1]) == 2
    ensures Dimensionality([1, 1, 1]) == 0
    ensures Dimensionality([4, 4, 4]) == 3
  {
  }

  // ---------------------------------------------------------------------------
  // The offsets of one local cubic grid
  // ---------------------------------------------------------------------------

  /** Number of offsets along an axis: 8 when the axis is active, otherwise the single 0. */
  function AxisCount(active: bool): nat {
    if active then 8 else 1
  }

  /**
   * The `k`-th offset along an axis, in units of the spacing: element `k` of
   * `np.arange(-4, 4) + 0.5` when the axis is active, otherwise 0.
   */
  function AxisOffset(active: bool, k: int): real {
    if active then (k - 4) as real + 0.5 else 0.0
  }

  /** The offsets along an active axis run from -3.5 to 3.5, symmetric about the centre. */
  lemma AxisOffsetValues()
    ensures seq(8, k requires 0 <= k < 8 => AxisOffset(true, k)) == [-3.5, -2.5, -1.5, -0.5, 0.5, 1.5, 2.5, 3.5]
  {
  }

  // ---------------------------------------------------------------------------
  // One cubic block: offsets scaled by the spacing, translated to a centre
  // ---------------------------------------------------------------------------

  /**
   * `np.array(list(product(lx, ly, lz))) * distance`: the y axis is active only
   * when `dim > 1` and the z axis only when `dim > 2`; x is always active. Row
   * `r` combines x offset `r / (ny * nz)`, y offset `(r / nz) % ny` and z offset
   * `r % nz`, the order in which `itertools.product` enumerates the axes. A
   * block holds 8, 64 or 512 rows: 8 per active axis, x always active.
   */
  function OffsetGrid(dim: int, d: real): (g: seq<Vec3>)
    ensures |g| == if dim > 2 then 512 else if dim > 1 then 64 else 8
  {
    var ny, nz := AxisCount(dim > 1), AxisCount(dim > 2);
    seq(8 * (ny * nz), r requires 0 <= r < 8 * (ny * nz) => Scale(OffsetRow(dim, r), d))
  }

  /** Row `r` of the block before scaling, in units of the spacing. */
  function OffsetRow(dim: int, r: int): Vec3 {
    var ny, nz := AxisCount(dim > 1), AxisCount(dim > 2);
    Vec3(AxisOffset(true, r / (ny * nz)), AxisOffset(dim > 1, (r / nz) % ny), AxisOffset(dim > 2, r % nz))
  }

  /** `c + grid`: the grid translated to the centre `c`. */
  function Translate(c: Vec3, grid: seq<Vec3>): seq<Vec3> {
    seq(|grid|, i requires 0 <= i < |grid| => Add(c, grid[i]))
  }

  /** Row `r` splits into the axis positions it is built from. */
  lemma RowSplit(r: int, ny: nat, nz: nat)
    requires ny == 1 || ny == 8
    requires nz == 1 || nz == 8
    requires 0 <= r
    ensures r == (r / (ny * nz)) * (ny * nz) + ((r / nz) % ny) * nz + r % nz
  {
  }

  /** The axis positions `(i, j, k)` are recovered from row `(i * ny + j) * nz + k`. */
  lemma RowJoin(i: nat, j: nat, k: nat, ny: nat, nz: nat)
    requires ny == 1 || ny == 8
    requires nz == 1 || nz == 8
    requires j < ny && k < nz
    ensures ((i * ny + j) * nz + k) / (ny * nz) == i
    ensures (((i * ny + j) * nz + k) / nz) % ny == j
    ensures ((i * ny + j) * nz + k) % nz == k
  {
  }

  /**
   * Row `(i * ny + j) * nz + k` of the block is the offset
   * `(AxisOffset(x, i), AxisOffset(y, j), AxisOffset(z, k)) * d`: x varies
   * slowest and z fastest, as in `itertools.product`.
   */
  lemma OffsetGridAt(dim: int, d: real, i: nat, j: nat, k: nat)
    requires i < 8 && j < AxisCount(dim > 1) && k < AxisCount(dim > 2)
    ensures (i * AxisCount(dim > 1) + j) * AxisCount(dim > 2) + k < |OffsetGrid(dim, d)|
    ensures OffsetGrid(dim, d)[(i * AxisCount(dim > 1) + j) * AxisCount(dim > 2) + k]
         == Scale(Vec3(AxisOffset(true, i), AxisOffset(dim > 1, j), AxisOffset(dim > 2, k)), d)
  {
    var r := (i * AxisCount(dim > 1) + j) * AxisCount(dim > 2) + k;
    RowBound(i, j, k, AxisCount(dim > 1), AxisCount(dim > 2));
    OffsetRowAt(dim, i, j, k);
    ScaleRow(OffsetGrid(dim, d), dim, d, r);
  }

  lemma ScaleRow(g: seq<Vec3>, dim: int, d: real, r: nat)
    requires g == OffsetGrid(dim, d) && r < |g|
    ensures g[r] == Scale(OffsetRow(dim, r), d)
  {
  }

  lemma OffsetRowAt(dim: int, i: nat, j: nat, k: nat)
    requires j < AxisCount(dim > 1) && k < AxisCount(dim > 2)
    ensures OffsetRow(dim, (i * AxisCount(dim > 1) + j) * AxisCount(dim > 2) + k)
         == Vec3(AxisOffset(true, i), AxisOffset(dim > 1, j), AxisOffset(dim > 2, k))
  {
    var ny, nz := AxisCount(dim > 1), AxisCount(dim > 2);
    var r := (i * ny + j) * nz + k;
    RowJoin(i, j, k, ny, nz);
    var x, y, z := r / (ny * nz), (r / nz) % ny, r % nz;
    assert x == i && y == j && z == k;
  }

  lemma RowBound(i: nat, j: nat, k: nat, ny: nat, nz: nat)
    requires ny == 1 || ny == 8
    requires nz == 1 || nz == 8
    requires i < 8 && j < ny && k < nz
    ensures (i * ny + j) * nz + k < 8 * (ny * nz)
  {
  }

  /** No two rows of `s` are closer than `d`. */
  ghost predicate Spaced(s: seq<Vec3>, d: real) {
    forall i, j :: 0 <= i < j < |s| ==> SqDist(s[i], s[j]) >= Sq(d)
  }

  lemma SquareNonNegative(x: real)
    ensures Sq(x) >= 0.0
  {
  }

  lemma SqDistSymmetric(a: Vec3, b: Vec3)
    ensures SqDist(a, b) == SqDist(b, a)
  {
  }

  /** Two different offsets of one axis differ by a whole number of spacings. */
  lemma AxisOffsetsApart(active: bool, i: int, i': int)
    requires AxisOffset(active, i) != AxisOffset(active, i')
    ensures Sq(AxisOffset(active, i) - AxisOffset(active, i')) >= 1.0
  {
    var m := i - i';
    assert AxisOffset(active, i) - AxisOffset(active, i') == m as real;
    if m > 0 {
      assert (m as real) * (m as real) >= m as real;
    } else {
      assert ((-m) as real) * ((-m) as real) >= (-m) as real;
    }
  }

  lemma ScaledApart(a: real, b: real, d: real)
    requires Sq(a - b) >= 1.0
    ensures Sq(a * d - b * d) >= Sq(d)
  {
    assert Sq(a * d - b * d) == Sq(a - b) * Sq(d);
    SquareNonNegative(d);
  }

  /** Two offsets that differ in some coordinate are at least one spacing apart once scaled. */
  lemma OffsetsApart(u: Vec3, v: Vec3, d: real)
    requires Sq(u.x - v.x) >= 1.0 || Sq(u.y - v.y) >= 1.0 || Sq(u.z - v.z) >= 1.0
    ensures SqDist(Scale(u, d), Scale(v, d)) >= Sq(d)
  {
    SquareNonNegative(u.x * d - v.x * d);
    SquareNonNegative(u.y * d - v.y * d);
    SquareNonNegative(u.z * d - v.z * d);
    if Sq(u.x - v.x) >= 1.0 {
      ScaledApart(u.x, v.x, d);
    } else if Sq(u.y - v.y) >= 1.0 {
      ScaledApart(u.y, v.y, d);
    } else {
      ScaledApart(u.z, v.z, d);
    }
  }

  /** Rows `r` and `s` of a block differ in at least one axis position. */
  lemma RowsDiffer(r: nat, s: nat, ny: nat, nz: nat)
    requires ny == 1 || ny == 8
    requires nz == 1 || nz == 8
    requires r != s
    ensures r / (ny * nz) != s / (ny * nz) || (r / nz) % ny != (s / nz) % ny || r % nz != s % nz
  {
    RowSplit(r, ny, nz);
    RowSplit(s, ny, nz);
  }

  /** Distinct rows of one block are at least one spacing apart. */
  lemma OffsetGridSpaced(dim: int, d: real)
    ensures Spaced(OffsetGrid(dim, d), d)
  {
    var ny, nz := AxisCount(dim > 1), AxisCount(dim > 2);
    var g := OffsetGrid(dim, d);
    forall r, s | 0 <= r < s < |g|
      ensures SqDist(g[r], g[s]) >= Sq(d)
    {
      var i, j, k := r / (ny * nz), (r / nz) % ny, r % nz;
      var i', j', k' := s / (ny * nz), (s / nz) % ny, s % nz;
      var u, v := OffsetRow(dim, r), OffsetRow(dim, s);
      RowsDiffer(r, s, ny, nz);
      if i != i' {
        AxisOffsetsApart(true, i, i');
      } else if j != j' {
        assert dim > 1;
        AxisOffsetsApart(dim > 1, j, j');
      } else {
        assert dim > 2;
        AxisOffsetsApart(dim > 2, k, k');
      }
      OffsetsApart(u, v, d);
    }
  }

  lemma TranslateSpaced(c: Vec3, grid: seq<Vec3>, d: real)
    requires Spaced(grid, d)
    ensures Spaced(Translate(c, grid), d)
  {
    var t := Translate(c, grid);
    forall i, j | 0 <= i < j < |t|
      ensures SqDist(t[i], t[j]) >= Sq(d)
    {
      assert SqDist(t[i], t[j]) == SqDist(grid[i], grid[j]);
    }
  }

  // ---------------------------------------------------------------------------
  // generate_cubic_grid as written
  // ---------------------------------------------------------------------------

  datatype GridError =
    | IndexOutOfRange     // `block[n]` for a position past the end of the block
    | StackShapeMismatch  // `np.vstack` of an (m, 3) array with the 1-D `np.array([])`

  /** The positions whose query entry is empty (`not q`). */
  function EmptyMask(query: seq<seq<nat>>): seq<bool> {
    seq(|query|, n requires 0 <= n < |query| => query[n] == [])
  }

  /**
   * `[new[n] for n, q in enumerate(query) if not q]`: the rows of `block` whose
   * query entry is empty, in order; indexing past the end of `block` fails.
   */
  function AttachRows(block: seq<Vec3>, query: seq<seq<nat>>): (r: Result<seq<Vec3>, GridError>)
    ensures r.Ok? <==> forall n :: 0 <= n < |query| && query[n] == [] ==> n < |block|
    ensures r.Ok? && |query| == |block| ==> SelectedInOrder(r.value, block, EmptyMask(query))
  {
    var idx := Where(EmptyMask(query));
    AttachBounds(block, query);
    if forall m :: 0 <= m < |idx| ==> idx[m] < |block| then
      if |query| == |block| then
        WhereSelects(block, EmptyMask(query));
        Ok(Take(block, idx))
      else
        Ok(Take(block, idx))
    else
      Err(IndexOutOfRange)
  }

  /** Every selected position is inside `block` exactly when every empty query entry is. */
  lemma AttachBounds(block: seq<Vec3>, query: seq<seq<nat>>)
    ensures var idx := Where(EmptyMask(query));
      (forall m :: 0 <= m < |idx| ==> idx[m] < |block|) <==> (forall n :: 0 <= n < |query| && query[n] == [] ==> n < |block|)
  {
    var mask := EmptyMask(query);
    var idx := Where(mask);
    if forall m :: 0 <= m < |idx| ==> idx[m] < |block| {
      forall n | 0 <= n < |query| && query[n] == []
        ensures n < |block|
      {
        assert mask[n];
        var m :| 0 <= m < |idx| && idx[m] == n;
      }
    }
    if forall n :: 0 <= n < |query| && query[n] == [] ==> n < |block| {
      forall m | 0 <= m < |idx|
        ensures idx[m] < |block|
      {
        assert idx[m] in idx;
        assert mask[idx[m]];
      }
    }
  }

  /** When every query entry has a hit, nothing is attached. */
  lemma NothingAttached(block: seq<Vec3>, query: seq<seq<nat>>)
    requires forall n :: 0 <= n < |query| ==> query[n] != []
    ensures AttachRows(block, query) == Ok([])
  {
    WhereNone(EmptyMask(query));
    assert Take(block, []) == [];
  }

  /**
   * `np.vstack((res, attach))` where `attach` was built from a Python list:
   * an empty list becomes a one-dimensional array and the stack fails.
   */
  function StackList(res: seq<Vec3>, attach: seq<Vec3>): Result<seq<Vec3>, GridError> {
    if attach == [] then Err(StackShapeMismatch) else Ok(res + attach)
  }

  /**
   * `generate_cubic_grid(centers, distance, dim)` as written: the block of
   * `8^dim` offsets is laid around each centre; the first block is stacked
   * onto the empty `res`; for every later centre both trees are built from
   * `res`, so every query entry holds the point itself, nothing is attached,
   * and stacking the empty one-dimensional `attach` fails.
   */
  method GenerateCubicGrid(centers: seq<Vec3>, distance: real, dim: int) returns (r: Result<seq<Vec3>, GridError>)
    ensures |centers| == 0 ==> r == Ok([])
    ensures |centers| == 1 ==> r == Ok(Translate(centers[0], OffsetGrid(dim, distance)))
    ensures |centers| >= 2 ==> r == Err(StackShapeMismatch)
  {
    var grid := OffsetGrid(dim, distance);
    r := Ok([]);
    var n := 0;
    while n < |centers| && r.Ok?
      invariant 0 <= n <= |centers| && n <= 2
      invariant n == 0 ==> r == Ok([])
      invariant n == 1 ==> r == Ok(Translate(centers[0], grid))
      invariant n == 2 ==> r == Err(StackShapeMismatch)
    {
      var res := r.value;
      var block := Translate(centers[n], grid);
      if n == 0 {
        assert res + block == block;
        r := Ok(res + block);
      } else {
        var query := QueryBallTree(res, res, distance);
        SelfQueryHits(res, distance);
        NothingAttached(block, query);
        match AttachRows(block, query)
        case Err(e) => r := Err(e);
        case Ok(attach) => r := StackList(res, attach);
      }
      n := n + 1;
    }
  }

  // ---------------------------------------------------------------------------
  // The intended proximity filter (not the code as written)
  // ---------------------------------------------------------------------------

  /**
   * INTENDED FILTER: the rows of `block` with no accepted row of `res` within `d`,
   * i.e. `KDTree(block).query_ball_tree(KDTree(res), d)` followed by the `not q`
   * selection.
   */
  function FarFrom(block: seq<Vec3>, res: seq<Vec3>, d: real): (kept: seq<Vec3>)
  {
    var q := QueryBallTree(block, res, d);
    var idx := Where(EmptyMask(q));
    Take(block, idx)
  }

  /** A row is kept exactly when it comes from `block` and no row of `res` lies within `d` of it. */
  lemma FarFromMembers(block: seq<Vec3>, res: seq<Vec3>, d: real, v: Vec3)
    ensures v in FarFrom(block, res, d) <==> v in block && forall k :: 0 <= k < |res| ==> !WithinRadius(v, res[k], d)
  {
    var q := QueryBallTree(block, res, d);
    var idx := Where(EmptyMask(q));
    var out := FarFrom(block, res, d);
    if v in out {
      var m :| 0 <= m < |out| && out[m] == v;
      assert EmptyMask(q)[idx[m]];
      assert q[idx[m]] == BallQuery(block[idx[m]], res, d);
    }
    if v in block && forall k :: 0 <= k < |res| ==> !WithinRadius(v, res[k], d) {
      var i :| 0 <= i < |block| && block[i] == v;
      assert q[i] == BallQuery(block[i], res, d);
      assert EmptyMask(q)[i];
      var m :| 0 <= m < |idx| && idx[m] == i;
      assert out[m] == v;
    }
  }

  /** Against an empty `res` every row is kept. */
  lemma FarFromNothing(block: seq<Vec3>, d: real)
    ensures FarFrom(block, [], d) == block
  {
    var q := QueryBallTree(block, [], d);
    forall n | 0 <= n < |q|
      ensures EmptyMask(q)[n]
    {
      assert q[n] == BallQuery(block[n], [], d);
    }
    WhereAll(EmptyMask(q));
  }

  /** The kept rows keep their spacing: a subsequence of a spaced block is spaced. */
  lemma FarFromSpaced(block: seq<Vec3>, res: seq<Vec3>, d: real)
    requires Spaced(block, d)
    ensures Spaced(FarFrom(block, res, d), d)
  {
    var q := QueryBallTree(block, res, d);
    var idx := Where(EmptyMask(q));
    var out := FarFrom(block, res, d);
    forall a, b | 0 <= a < b < |out|
      ensures SqDist(out[a], out[b]) >= Sq(d)
    {
      assert out[a] == block[idx[a]] && out[b] == block[idx[b]];
    }
  }

  /**
   * INTENDED GRID: each centre contributes only the rows of its block that have
   * no accepted row within `d`, and an empty contribution adds nothing. Against
   * no accepted rows the first block is kept whole, as the source's `n == 0`
   * branch keeps it.
   */
  function CubicGridIntended(centers: seq<Vec3>, grid: seq<Vec3>, d: real): seq<Vec3>
    decreases |centers|
  {
    if centers == [] then []
    else
      var n := |centers| - 1;
      var res := CubicGridIntended(centers[..n], grid, d);
      res + FarFrom(Translate(centers[n], grid), res, d)
  }

  /** The first centre's whole block is kept. */
  lemma IntendedFirstBlock(c: Vec3, grid: seq<Vec3>, d: real)
    ensures CubicGridIntended([c], grid, d) == Translate(c, grid)
  {
    assert [c][..0] == [];
    FarFromNothing(Translate(c, grid), d);
  }

  /** Later centres only append: the grid of a prefix of the centres is a prefix of the grid. */
  lemma {:induction false} IntendedExtends(centers: seq<Vec3>, m: nat, grid: seq<Vec3>, d: real)
    requires m <= |centers|
    ensures CubicGridIntended(centers[..m], grid, d) <= CubicGridIntended(centers, grid, d)
    decreases |centers| - m
  {
    if m == |centers| {
      assert centers[..m] == centers;
    } else {
      IntendedExtends(centers, m + 1, grid, d);
      var next := centers[..m + 1];
      assert next[..m] == centers[..m];
      var front := CubicGridIntended(centers[..m], grid, d);
      var mid := CubicGridIntended(next, grid, d);
      var all := CubicGridIntended(centers, grid, d);
      assert mid == front + FarFrom(Translate(next[m], grid), front, d);
      assert front == mid[..|front|];
      assert mid == all[..|mid|];
      assert front == all[..|front|];
    }
  }

  /** Every row of the grid is some centre plus some offset. */
  lemma {:induction false} IntendedSound(centers: seq<Vec3>, grid: seq<Vec3>, d: real, v: Vec3)
    requires v in CubicGridIntended(centers, grid, d)
    ensures exists m, i :: 0 <= m < |centers| && 0 <= i < |grid| && v == Add(centers[m], grid[i])
    decreases |centers|
  {
    var n := |centers| - 1;
    var res := CubicGridIntended(centers[..n], grid, d);
    if v in res {
      IntendedSound(centers[..n], grid, d, v);
      var m, i :| 0 <= m < n && 0 <= i < |grid| && v == Add(centers[..n][m], grid[i]);
      assert centers[..n][m] == centers[m];
    } else {
      var block := Translate(centers[n], grid);
      FarFromMembers(block, res, d, v);
      var i :| 0 <= i < |block| && block[i] == v;
      assert v == Add(centers[n], grid[i]);
    }
  }

  /**
   * Every candidate `centre + offset` is covered: it lies within `d` of some
   * row of the grid (itself when it was kept).
   */
  lemma {:induction false} IntendedCovers(centers: seq<Vec3>, grid: seq<Vec3>, d: real, m: nat, i: nat)
    requires m < |centers| && i < |grid|
    ensures exists w :: w in CubicGridIntended(centers, grid, d) && WithinRadius(Add(centers[m], grid[i]), w, d)
    decreases |centers|
  {
    var n := |centers| - 1;
    var res := CubicGridIntended(centers[..n], grid, d);
    var block := Translate(centers[n], grid);
    var all := CubicGridIntended(centers, grid, d);
    assert all == res + FarFrom(block, res, d);
    if m < n {
      IntendedCovers(centers[..n], grid, d, m, i);
      assert centers[..n][m] == centers[m];
      var w :| w in res && WithinRadius(Add(centers[m], grid[i]), w, d);
      assert w in all;
    } else {
      assert block[i] == Add(centers[m], grid[i]);
      CoveredByStep(res, block, d, i);
      var w :| w in res + FarFrom(block, res, d) && WithinRadius(block[i], w, d);
      assert w in all;
    }
  }

  /** A row of the newest block is kept, or some accepted row lies within `d` of it. */
  lemma CoveredByStep(res: seq<Vec3>, block: seq<Vec3>, d: real, i: nat)
    requires i < |block|
    ensures exists w :: w in res + FarFrom(block, res, d) && WithinRadius(block[i], w, d)
  {
    var v := block[i];
    FarFromMembers(block, res, d, v);
    if forall k :: 0 <= k < |res| ==> !WithinRadius(v, res[k], d) {
      assert v in res + FarFrom(block, res, d);
      assert SqDist(v, v) == 0.0;
      SquareNonNegative(d);
    } else {
      var k :| 0 <= k < |res| && WithinRadius(v, res[k], d);
      assert res[k] in res + FarFrom(block, res, d);
    }
  }

  /**
   * With a spaced block, no two rows of the grid are closer than `d`: a kept
   * row is farther than `d` from every earlier row.
   */
  lemma {:induction false} IntendedSpaced(centers: seq<Vec3>, grid: seq<Vec3>, d: real)
    requires Spaced(grid, d)
    ensures Spaced(CubicGridIntended(centers, grid, d), d)
    decreases |centers|
  {
    if centers != [] {
      var n := |centers| - 1;
      var res := CubicGridIntended(centers[..n], grid, d);
      IntendedSpaced(centers[..n], grid, d);
      TranslateSpaced(centers[n], grid, d);
      SpacedStep(res, Translate(centers[n], grid), d);
    }
  }

  /** Appending the kept rows of a spaced block to spaced rows keeps them spaced. */
  lemma SpacedStep(res: seq<Vec3>, block: seq<Vec3>, d: real)
    requires Spaced(res, d) && Spaced(block, d)
    ensures Spaced(res + FarFrom(block, res, d), d)
  {
    var kept := FarFrom(block, res, d);
    FarFromSpaced(block, res, d);
    var out := res + kept;
    forall a, b | 0 <= a < b < |out|
      ensures SqDist(out[a], out[b]) >= Sq(d)
    {
      if a < |res| && b >= |res| {
        var v := out[b];
        assert v == kept[b - |res|];
        KeptFarFromAccepted(block, res, d, v, a);
      } else if a >= |res| {
        assert out[a] == kept[a - |res|] && out[b] == kept[b - |res|];
      }
    }
  }

  /** A kept row is farther than `d` from every accepted row. */
  lemma KeptFarFromAccepted(block: seq<Vec3>, res: seq<Vec3>, d: real, v: Vec3, a: nat)
    requires v in FarFrom(block, res, d) && a < |res|
    ensures SqDist(res[a], v) >= Sq(d)
  {
    FarFromMembers(block, res, d, v);
    assert !WithinRadius(v, res[a], d);
    SqDistSymmetric(v, res[a]);
  }

  /**
   * INTENDED GENERATOR: `generate_cubic_grid` with each centre's block queried
   * against the rows accepted so far. Its rows are pairwise at least `distance` apart.
   */
  method GenerateCubicGridIntended(centers: seq<Vec3>, distance: real, dim: int) returns (res: seq<Vec3>)
    ensures res == CubicGridIntended(centers, OffsetGrid(dim, distance), distance)
    ensures Spaced(res, distance)
  {
    var grid := OffsetGrid(dim, distance);
    res := [];
    var n := 0;
    while n < |centers|
      invariant 0 <= n <= |centers|
      invariant res == CubicGridIntended(centers[..n], grid, distance)
    {
      assert centers[..n + 1][..n] == centers[..n];
      var block := Translate(centers[n], grid);
      var query := QueryBallTree(block, res, distance);
      var idx := Where(EmptyMask(query));
      res := res + Take(block, idx);
      n := n + 1;
    }
    assert centers[..n] == centers;
    OffsetGridSpaced(dim, distance);
    IntendedSpaced(centers, grid, distance);
  }
}
