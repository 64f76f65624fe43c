/**
 * The gap classifier `get_crossing_and_lowgap_points` and the choice of the
 * valence and conduction band indices from the electron count.
 */
module Bands {
  import opened Wrappers
  import opened Arrays

  /** Band energies: one row of `nbands` energies per k-point. */
  datatype BandsData = BandsData(kpoints: seq<Vec3>, bands: seq<seq<real>>, nbands: nat)

  /** One energy row per k-point and `nbands` energies in every row, as for a numpy array. */
  predicate WellFormed(b: BandsData) {
    |b.bands| == |b.kpoints| && forall k :: 0 <= k < |b.bands| ==> |b.bands[k]| == b.nbands
  }

  /** The two arrays stored by the classifier. */
  datatype GapPoints = GapPoints(pinned: seq<Vec3>, found: seq<Vec3>)

  datatype BandError = BandIndexOutOfRange(index: int)

  /** numpy accepts an index `i` on an axis of length `n` when `-n <= i < n`. */
  predicate ValidIndex(i: int, n: nat) {
    -(n as int) <= i < n
  }

  /**
   * `row[i]` with numpy's negative indices counting from the end: every valid
   * index names the entry at its residue modulo the axis length.
   */
  function At(row: seq<real>, i: int): (e: real)
    requires ValidIndex(i, |row|)
    ensures e == row[i % |row|]
  {
    if i < 0 then row[|row| + i] else row[i]
  }

  /** `bands[:, cb] - bands[:, vb]`. */
  function Gaps(b: BandsData, vb: int, cb: int): (g: seq<real>)
    requires WellFormed(b) && ValidIndex(vb, b.nbands) && ValidIndex(cb, b.nbands)
    ensures |g| == |b.kpoints|
  {
    seq(|b.bands|, k requires 0 <= k < |b.bands| => At(b.bands[k], cb) - At(b.bands[k], vb))
  }

  /** `(min < gaps) & (gaps <= current)`. */
  function PinnedMask(gaps: seq<real>, current: real, min: real): seq<bool> {
    seq(|gaps|, k requires 0 <= k < |gaps| => min < gaps[k] && gaps[k] <= current)
  }

  /** `gaps <= min`. */
  function FoundMask(gaps: seq<real>, min: real): seq<bool> {
    seq(|gaps|, k requires 0 <= k < |gaps| => gaps[k] <= min)
  }

  /**
   * `get_crossing_and_lowgap_points`: `found` holds the k-points whose gap is at
   * most `min`, `pinned` those whose gap lies in `(min, current]`, both in
   * k-point order; a band index outside the band axis fails.
   */
  function Classify(b: BandsData, vb: int, cb: int, current: real, min: real): (r: Result<GapPoints, BandError>)
    requires WellFormed(b)
    ensures r.Err? <==> !ValidIndex(cb, b.nbands) || !ValidIndex(vb, b.nbands)
    ensures r.Ok? ==> SelectedInOrder(r.value.found, b.kpoints, FoundMask(Gaps(b, vb, cb), min))
    ensures r.Ok? ==> SelectedInOrder(r.value.pinned, b.kpoints, PinnedMask(Gaps(b, vb, cb), current, min))
  {
    if !ValidIndex(cb, b.nbands) then Err(BandIndexOutOfRange(cb))
    else if !ValidIndex(vb, b.nbands) then Err(BandIndexOutOfRange(vb))
    else
      var gaps := Gaps(b, vb, cb);
      WhereSelects(b.kpoints, PinnedMask(gaps, current, min));
      WhereSelects(b.kpoints, FoundMask(gaps, min));
      Ok(GapPoints(Take(b.kpoints, Where(PinnedMask(gaps, current, min))), Take(b.kpoints, Where(FoundMask(gaps, min)))))
  }

  predicate Distinct<T(==)>(s: seq<T>) {
    forall i, j :: 0 <= i < j < |s| ==> s[i] != s[j]
  }

  /**
   * With distinct k-points, `pinned` and `found` share no point, and a k-point
   * whose gap exceeds both thresholds is in neither.
   */
  lemma ClassifyPartition(b: BandsData, vb: int, cb: int, current: real, min: real)
    requires WellFormed(b) && Distinct(b.kpoints)
    requires Classify(b, vb, cb, current, min).Ok?
    ensures var p := Classify(b, vb, cb, current, min).value;
      forall v :: !(v in p.pinned && v in p.found)
    ensures var p := Classify(b, vb, cb, current, min).value;
      forall k :: 0 <= k < |b.kpoints| ==>
        (b.kpoints[k] !in p.pinned && b.kpoints[k] !in p.found <==> Gaps(b, vb, cb)[k] > current && Gaps(b, vb, cb)[k] > min)
  {
    var p := Classify(b, vb, cb, current, min).value;
    var gaps := Gaps(b, vb, cb);
    var pm, fm := PinnedMask(gaps, current, min), FoundMask(gaps, min);
    forall v
      ensures !(v in p.pinned && v in p.found)
    {
      SelectedMembers(p.pinned, b.kpoints, pm, v);
      SelectedMembers(p.found, b.kpoints, fm, v);
      if v in p.pinned {
        var k :| 0 <= k < |b.kpoints| && pm[k] && b.kpoints[k] == v;
        forall k' | 0 <= k' < |b.kpoints| && b.kpoints[k'] == v
          ensures !fm[k']
        {
          assert k' == k;
        }
      }
    }
    forall k | 0 <= k < |b.kpoints|
      ensures b.kpoints[k] !in p.pinned && b.kpoints[k] !in p.found <==> gaps[k] > current && gaps[k] > min
    {
      var v := b.kpoints[k];
      SelectedMembers(p.pinned, b.kpoints, pm, v);
      SelectedMembers(p.found, b.kpoints, fm, v);
      forall k' | 0 <= k' < |b.kpoints| && b.kpoints[k'] == v
        ensures k' == k
      {
      }
    }
  }

  /** With `current <= min` no gap lies in `(min, current]`, so nothing is pinned. */
  lemma NothingPinnedBelowMin(b: BandsData, vb: int, cb: int, current: real, min: real)
    requires WellFormed(b) && current <= min
    requires Classify(b, vb, cb, current, min).Ok?
    ensures Classify(b, vb, cb, current, min).value.pinned == []
  {
    WhereNone(PinnedMask(Gaps(b, vb, cb), current, min));
  }

  /** Gaps 0.5 and 0.0001 with thresholds 0.3 and 0.001: nothing pinned, the second point found. */
  lemma ClassifyExample(p1: Vec3, p2: Vec3)
    ensures Classify(BandsData([p1, p2], [[1.0, 1.5], [2.0, 2.0001]], 2), 0, 1, 0.3, 0.001)
         == Ok(GapPoints([], [p2]))
  {
    var b := BandsData([p1, p2], [[1.0, 1.5], [2.0, 2.0001]], 2);
    var gaps := Gaps(b, 0, 1);
    assert gaps == [0.5, 0.0001];
    var pm, fm := PinnedMask(gaps, 0.3, 0.001), FoundMask(gaps, 0.001);
    assert pm == [false, false];
    assert fm == [false, true];
    WhereNone(pm);
    assert fm[..1] == [false];
    WhereNone(fm[..1]);
    assert Where(fm) == [1];
    assert Take(b.kpoints, Where(pm)) == [];
    assert Take(b.kpoints, Where(fm)) == [p2];
  }

  // ---------------------------------------------------------------------------
  // Band indices from the electron count
  // ---------------------------------------------------------------------------

  /** Python's `int(x)` on a float: truncation toward zero. */
  function TruncToInt(x: real): (n: int)
    ensures 0.0 <= x ==> n as real <= x < n as real + 1.0
    ensures x < 0.0 ==> n as real - 1.0 < x <= n as real
  {
    if x >= 0.0 then x.Floor else -((-x).Floor)
  }

  /**
   * `cb = int(n_el) // (int(not spin) + 1)`: the electron count itself with
   * spin-orbit coupling, half of it (rounded down) without.
   */
  function ConductionBand(numberOfElectrons: real, spinOrbit: bool): (cb: int)
    ensures spinOrbit ==> cb == TruncToInt(numberOfElectrons)
    ensures !spinOrbit ==> 2 * cb <= TruncToInt(numberOfElectrons) < 2 * cb + 2
  {
    TruncToInt(numberOfElectrons) / (if spinOrbit then 1 else 2)
  }

  /**
   * `vb = cb - 1`: the highest occupied band, counting bands from zero, holding
   * one electron each with spin-orbit coupling and two without.
   */
  function ValenceBand(numberOfElectrons: real, spinOrbit: bool): (vb: int)
    ensures spinOrbit ==> vb == TruncToInt(numberOfElectrons) - 1
    ensures !spinOrbit ==> 2 * vb + 2 <= TruncToInt(numberOfElectrons) < 2 * vb + 4
  {
    ConductionBand(numberOfElectrons, spinOrbit) - 1
  }

  /** Ten electrons give bands 4 and 5 without spin-orbit coupling, 9 and 10 with it. */
  lemma BandIndexExamples()
    ensures ValenceBand(10.0, false) == 4 && ConductionBand(10.0, false) == 5
    ensures ValenceBand(10.0, true) == 9 && ConductionBand(10.0, true) == 10
  {
  }
}
