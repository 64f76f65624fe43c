/**
 * `crop_kpoints`: keep the points of a k-point mesh that lie within a radius
 * of at least one centre, after checking that the centres form an (m, 3) array.
 * The crystal-to-Cartesian map is a parameter of the model.
 */
module Crop {
  import opened Wrappers
  import opened Arrays

  /** A numpy array: its shape and its elements in row-major order. */
  datatype NdArray = NdArray(shape: seq<nat>, flat: seq<real>)

  /** Number of elements a shape holds. */
  function ShapeSize(shape: seq<nat>): nat {
    if shape == [] then 1 else shape[0] * ShapeSize(shape[1..])
  }

  /** The element count agrees with the shape, as it does for every numpy array. */
  predicate WellFormed(a: NdArray) {
    |a.flat| == ShapeSize(a.shape)
  }

  datatype CropError = InvalidShape(shape: seq<nat>)

  /** Row `i` of a row-major (m, 3) array. */
  function RowOf(flat: seq<real>, i: nat): Vec3
    requires 3 * i + 2 < |flat|
  {
    Vec3(flat[3 * i], flat[3 * i + 1], flat[3 * i + 2])
  }

  /**
   * The shape check of the centres: anything but a two-dimensional array with
   * three columns is rejected; an (m, 3) array is read as m rows.
   */
  function CenterRows(a: NdArray): (r: Result<seq<Vec3>, CropError>)
    requires WellFormed(a)
    ensures r.Err? <==> |a.shape| != 2 || a.shape[1] != 3
    ensures r.Err? ==> r.error == InvalidShape(a.shape)
    ensures r.Ok? ==> |r.value| == a.shape[0]
    ensures r.Ok? ==> |a.flat| == 3 * |r.value|
    ensures r.Ok? ==> forall i :: 0 <= i < |r.value| ==>
      r.value[i] == Vec3(a.flat[3 * i], a.flat[3 * i + 1], a.flat[3 * i + 2])
  {
    if |a.shape| != 2 || a.shape[1] != 3 then Err(InvalidShape(a.shape))
    else
      assert ShapeSize(a.shape) == a.shape[0] * 3 by {
        assert ShapeSize(a.shape[1..]) == 3 * ShapeSize(a.shape[2..]);
      }
      Ok(seq(a.shape[0], i requires 0 <= i < a.shape[0] => RowOf(a.flat, i)))
  }

  /** Some centre lies within radius `r` of `p`. */
  predicate NearSomeCentre(p: Vec3, centers: seq<Vec3>, r: real) {
    exists k :: 0 <= k < |centers| && WithinRadius(p, centers[k], r)
  }

  /** The per-point keep mask, in Cartesian coordinates. */
  function NearMask(kpts: seq<Vec3>, centers: seq<Vec3>, r: real, toCart: Vec3 -> Vec3): seq<bool> {
    seq(|kpts|, n requires 0 <= n < |kpts| => NearSomeCentre(toCart(kpts[n]), Cartesian(centers, toCart), r))
  }

  function Cartesian(points: seq<Vec3>, toCart: Vec3 -> Vec3): seq<Vec3> {
    seq(|points|, n requires 0 <= n < |points| => toCart(points[n]))
  }

  /**
   * The selection: query every Cartesian mesh point against the Cartesian
   * centres and keep the crystal rows whose query has a hit, in mesh order.
   */
  function CropSelection(kpts: seq<Vec3>, centers: seq<Vec3>, r: real, toCart: Vec3 -> Vec3): (out: seq<Vec3>)
    ensures SelectedInOrder(out, kpts, NearMask(kpts, centers, r, toCart))
  {
    var query := QueryBallTree(Cartesian(kpts, toCart), Cartesian(centers, toCart), r);
    var hit := seq(|query|, n requires 0 <= n < |query| => query[n] != []);
    assert hit == NearMask(kpts, centers, r, toCart) by {
      forall n | 0 <= n < |query|
        ensures hit[n] == NearMask(kpts, centers, r, toCart)[n]
      {
        var cs := Cartesian(centers, toCart);
        assert query[n] == BallQuery(toCart(kpts[n]), cs, r);
        if hit[n] {
          var k := query[n][0];
          assert k in query[n];
        }
      }
    }
    WhereSelects(kpts, hit);
    Take(kpts, Where(hit))
  }

  /** A mesh row is kept exactly when some centre lies within `r` of it. */
  lemma CropMembers(kpts: seq<Vec3>, centers: seq<Vec3>, r: real, toCart: Vec3 -> Vec3, n: nat)
    requires n < |kpts|
    ensures kpts[n] in CropSelection(kpts, centers, r, toCart) <==>
      NearSomeCentre(toCart(kpts[n]), Cartesian(centers, toCart), r)
    ensures forall v :: v in CropSelection(kpts, centers, r, toCart) ==>
      exists m :: 0 <= m < |kpts| && kpts[m] == v && NearSomeCentre(toCart(v), Cartesian(centers, toCart), r)
  {
    CropKeepsNear(kpts, centers, r, toCart, n);
    CropKeepsOnlyNear(kpts, centers, r, toCart);
  }

  lemma CropKeepsNear(kpts: seq<Vec3>, centers: seq<Vec3>, r: real, toCart: Vec3 -> Vec3, n: nat)
    requires n < |kpts|
    ensures NearSomeCentre(toCart(kpts[n]), Cartesian(centers, toCart), r) ==> kpts[n] in CropSelection(kpts, centers, r, toCart)
  {
    var mask := NearMask(kpts, centers, r, toCart);
    SelectedMembers(CropSelection(kpts, centers, r, toCart), kpts, mask, kpts[n]);
    assert mask[n] == NearSomeCentre(toCart(kpts[n]), Cartesian(centers, toCart), r);
  }

  lemma CropKeepsOnlyNear(kpts: seq<Vec3>, centers: seq<Vec3>, r: real, toCart: Vec3 -> Vec3)
    ensures forall v :: v in CropSelection(kpts, centers, r, toCart) ==>
      exists m :: 0 <= m < |kpts| && kpts[m] == v && NearSomeCentre(toCart(v), Cartesian(centers, toCart), r)
  {
    var out := CropSelection(kpts, centers, r, toCart);
    var mask := NearMask(kpts, centers, r, toCart);
    forall v | v in out
      ensures exists m :: 0 <= m < |kpts| && kpts[m] == v && NearSomeCentre(toCart(v), Cartesian(centers, toCart), r)
    {
      SelectedMembers(out, kpts, mask, v);
      var k :| 0 <= k < |kpts| && mask[k] && kpts[k] == v;
      assert mask[k] == NearSomeCentre(toCart(kpts[k]), Cartesian(centers, toCart), r);
    }
  }

  /**
   * `crop_kpoints`: reject centres that are not an (m, 3) array, otherwise
   * return the selected mesh rows in crystal coordinates.
   */
  function CropKpoints(kpts: seq<Vec3>, centers: NdArray, r: real, toCart: Vec3 -> Vec3): (res: Result<seq<Vec3>, CropError>)
    requires WellFormed(centers)
    ensures res.Err? <==> |centers.shape| != 2 || centers.shape[1] != 3
    ensures res.Ok? ==> exists cs :: CenterRows(centers) == Ok(cs) && SelectedInOrder(res.value, kpts, NearMask(kpts, cs, r, toCart))
  {
    match CenterRows(centers)
    case Err(e) => Err(e)
    case Ok(cs) => Ok(CropSelection(kpts, cs, r, toCart))
  }
}
