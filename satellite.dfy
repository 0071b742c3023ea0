/**
 * Zoom selection and the download bookkeeping of gmap_retrieval/satellite.py:
 * find_zoom_level's bracket-and-compare scan over zoom levels 0..21, and
 * get_satellite_image's skip-existing rule and image_coverage.csv journal.
 *
 * The cosine of a latitude (in degrees) is a parameter (`cosDeg`), the
 * Static Maps answer is a function from (ID, zoom) to png bytes, and
 * numpy's float-to-text conversion is a function `show`.
 */
module Satellite {
  import opened Basics

  // ---------------------------------------------------------------------
  // Coverage of one image
  // ---------------------------------------------------------------------

  /** Metres per pixel at zoom 0 on the equator, as in the source. */
  const MetresPerPixelAtZoom0: real := 156543.03392

  /** The scan covers zoom levels 0 to MaxZoom. */
  const MaxZoom: nat := 21

  function Pow2(z: nat): (p: real)
    ensures p >= 1.0
  {
    if z == 0 then 1.0 else 2.0 * Pow2(z - 1)
  }

  /** The coverage at zoom 0: metres per pixel times pixels, in km. */
  function Span(c: real, size: int): real
  {
    MetresPerPixelAtZoom0 * c * (size as real) / 1000.0
  }

  /**
   * The horizontal coverage in km of a `size`-pixel image at zoom z, for a
   * latitude whose cosine is c: each zoom level halves the previous one.
   */
  function Coverage(c: real, size: int, z: nat): (r: real)
    ensures c > 0.0 && size > 0 ==> r > 0.0
  {
    if z == 0 then Span(c, size) else Coverage(c, size, z - 1) / 2.0
  }

  /** Coverage is the source's formula 156543.03392 * cos / 2^z * size / 1000. */
  lemma {:induction false} CoverageFormula(c: real, size: int, z: nat)
    ensures Coverage(c, size, z) == MetresPerPixelAtZoom0 * c / Pow2(z) * (size as real) / 1000.0
  {
    if z > 0 {
      CoverageFormula(c, size, z - 1);
      var p := Pow2(z - 1);
      var k := MetresPerPixelAtZoom0 * c;
      var s := size as real;
      assert Pow2(z) == 2.0 * p;
      assert k / (2.0 * p) * s / 1000.0 == (k / p * s / 1000.0) / 2.0;
    }
  }

  /** For a positive cosine and size, coverage strictly decreases with the zoom. */
  lemma {:induction false} CoverageDecreases(c: real, size: int, z: nat, w: nat)
    requires c > 0.0 && size > 0 && z < w
    ensures Coverage(c, size, w) < Coverage(c, size, z)
    decreases w - z
  {
    if z < w - 1 {
      CoverageDecreases(c, size, z, w - 1);
    }
  }

  // ---------------------------------------------------------------------
  // The intended choice for one latitude
  // ---------------------------------------------------------------------

  /** The quantities the scan divides by are positive: cosine, image size and ideal coverage. */
  predicate Positive(c: real, ideal: real, size: int)
  {
    c > 0.0 && size > 0 && ideal > 0.0
  }

  /** The latitude is bracketed: zoom 0 covers more than the ideal, zoom 21 at most the ideal. */
  predicate Bracketed(c: real, ideal: real, size: int)
  {
    Coverage(c, size, 0) > ideal && Coverage(c, size, MaxZoom) <= ideal
  }

  /** The first zoom from z on whose coverage does not exceed the ideal. */
  function FirstFit(c: real, ideal: real, size: int, z: nat): (r: nat)
    requires z <= MaxZoom && Coverage(c, size, MaxZoom) <= ideal
    ensures z <= r <= MaxZoom && Coverage(c, size, r) <= ideal
    ensures forall w :: z <= w < r ==> Coverage(c, size, w) > ideal
    decreases MaxZoom - z
  {
    if Coverage(c, size, z) <= ideal then z else FirstFit(c, ideal, size, z + 1)
  }

  function Square(x: real): real
  {
    x * x
  }

  /**
   * The zoom find_zoom_level settles on for a bracketed latitude: z, the
   * first zoom that fits, when (ideal / cov_z)^2 <= (cov_{z-1} / ideal)^2,
   * otherwise z - 1.
   */
  function BestZoom(c: real, ideal: real, size: int): (z: nat)
    requires Positive(c, ideal, size) && Bracketed(c, ideal, size)
    ensures 1 <= FirstFit(c, ideal, size, 0) && FirstFit(c, ideal, size, 0) - 1 <= z <= FirstFit(c, ideal, size, 0)
    ensures z <= MaxZoom
  {
    var f := FirstFit(c, ideal, size, 0);
    if Square(ideal / Coverage(c, size, f)) <= Square(Coverage(c, size, f - 1) / ideal) then f else f - 1
  }

  /** How far a coverage is from the ideal, as a factor: always at least 1. */
  function Deviation(coverage: real, ideal: real): real
    requires coverage > 0.0 && ideal > 0.0
  {
    if coverage > ideal then coverage / ideal else ideal / coverage
  }

  lemma SquareStrict(x: real, y: real)
    requires 0.0 <= y < x
    ensures y * y < x * x
  {
    var d := x - y;
    assert x * x == y * y + 2.0 * y * d + d * d;
    assert d * d > 0.0;
    assert y * d >= 0.0;
  }

  lemma SquareMonotone(x: real, y: real)
    requires 0.0 <= x && 0.0 <= y
    ensures Square(x) <= Square(y) <==> x <= y
  {
    if x < y {
      SquareStrict(y, x);
    } else if y < x {
      SquareStrict(x, y);
    }
  }

  lemma DivideMonotone(a: real, b: real, d: real)
    requires d > 0.0 && a <= b
    ensures a / d <= b / d
  {
  }

  lemma DivisorAntitone(a: real, b: real, d: real)
    requires d > 0.0 && 0.0 < a <= b
    ensures d / b <= d / a
  {
    assert d / b == (d / a) * (a / b);
    assert a / b <= 1.0;
  }

  /** The chosen zoom's deviation is the smaller of the deviations of the two zooms around the ideal. */
  lemma BestDeviationIsSmaller(c: real, ideal: real, size: int)
    requires Positive(c, ideal, size) && Bracketed(c, ideal, size)
    ensures
      var f := FirstFit(c, ideal, size, 0);
      && Coverage(c, size, f) > 0.0 && Coverage(c, size, f - 1) > ideal
      && Deviation(Coverage(c, size, BestZoom(c, ideal, size)), ideal) <= ideal / Coverage(c, size, f)
      && Deviation(Coverage(c, size, BestZoom(c, ideal, size)), ideal) <= Coverage(c, size, f - 1) / ideal
  {
    var f := FirstFit(c, ideal, size, 0);
    var below := Coverage(c, size, f);
    var above := Coverage(c, size, f - 1);
    assert above > ideal;
    ChoiceBound(below, above, ideal, BestZoom(c, ideal, size) == f);
  }

  /**
   * Picking between a coverage at most the ideal and one above it by the
   * squared factors leaves a deviation no larger than either factor.
   */
  lemma ChoiceBound(below: real, above: real, ideal: real, pickBelow: bool)
    requires 0.0 < below <= ideal < above
    requires pickBelow <==> Square(ideal / below) <= Square(above / ideal)
    ensures var chosen := if pickBelow then below else above;
      Deviation(chosen, ideal) <= ideal / below && Deviation(chosen, ideal) <= above / ideal
  {
    var byBelow := ideal / below;
    var byAbove := above / ideal;
    assert byBelow > 0.0 && byAbove > 0.0;
    SquareMonotone(byBelow, byAbove);
  }

  /**
   * The zoom chosen for a bracketed latitude is a closest one: no zoom
   * level from 0 to 21 has a coverage nearer to the ideal (as a factor).
   */
  lemma BestZoomIsClosest(c: real, ideal: real, size: int, w: nat)
    requires Positive(c, ideal, size) && Bracketed(c, ideal, size) && w <= MaxZoom
    ensures Deviation(Coverage(c, size, BestZoom(c, ideal, size)), ideal) <= Deviation(Coverage(c, size, w), ideal)
  {
    var f := FirstFit(c, ideal, size, 0);
    BestDeviationIsSmaller(c, ideal, size);
    var cw := Coverage(c, size, w);
    if w >= f {
      if w > f {
        CoverageDecreases(c, size, f, w);
      }
      assert Deviation(cw, ideal) == ideal / cw;
      DivisorAntitone(cw, Coverage(c, size, f), ideal);
    } else {
      if w < f - 1 {
        CoverageDecreases(c, size, w, f - 1);
      }
      assert Deviation(cw, ideal) == cw / ideal;
      DivideMonotone(Coverage(c, size, f - 1), cw, ideal);
    }
  }

  /** On a tie between the two bracketing zooms, the finer zoom (whose coverage does not exceed the ideal) wins. */
  lemma TieGoesToFinerZoom(c: real, ideal: real, size: int)
    requires Positive(c, ideal, size) && Bracketed(c, ideal, size)
    requires
      var z := FirstFit(c, ideal, size, 0);
      Coverage(c, size, z - 1) / ideal == ideal / Coverage(c, size, z)
    ensures Coverage(c, size, BestZoom(c, ideal, size)) <= ideal
  {
  }

  // ---------------------------------------------------------------------
  // find_zoom_level as written: the scan with its carried variables
  // ---------------------------------------------------------------------

  /** prev_ratio with prev_horizontal_coverage_in_km, which are always assigned together. */
  datatype Above = Above(ratio: real, coverage: real)

  /**
   * The Python locals that survive from one latitude to the next: the last
   * prev_ratio/prev_horizontal_coverage_in_km and the last ratio, each
   * possibly never assigned.
   */
  datatype Carry = Carry(above: Option<Above>, below: Option<real>)

  /** Reading prev_ratio or ratio before any assignment: UnboundLocalError. */
  datatype ZoomError = UnboundVariable

  /** The inner loop from zoom z: the zoom it stops at, that zoom's coverage, and the updated locals. */
  function ScanFrom(c: real, ideal: real, size: int, z: nat, carry: Carry): (r: (nat, real, Carry))
    requires Positive(c, ideal, size) && z <= MaxZoom
    ensures z <= r.0 <= MaxZoom && r.1 == Coverage(c, size, r.0)
    decreases MaxZoom - z
  {
    var cov := Coverage(c, size, z);
    if cov > ideal then
      var next := carry.(above := Some(Above(Square(cov / ideal), cov)));
      if z == MaxZoom then (z, cov, next) else ScanFrom(c, ideal, size, z + 1, next)
    else (z, cov, carry.(below := Some(Square(ideal / cov))))
  }

  /** The comparison after the inner loop: the zoom and coverage stored for this latitude. */
  function Decide(zoom: nat, cov: real, carry: Carry): Result<(int, real), ZoomError>
  {
    if carry.below.None? || carry.above.None? then Failure(UnboundVariable)
    else if carry.below.value <= carry.above.value.ratio then Success((zoom as int, cov))
    else Success((zoom as int - 1, carry.above.value.coverage))
  }

  /**
   * `order` is what `sorted(zip(latitudes, range(n)), key=latitude)` yields:
   * every index once, by ascending latitude, equal latitudes by index.
   */
  predicate SortOrder(lats: seq<real>, order: seq<nat>)
  {
    && Indexes(lats, order)
    && (forall k, l :: 0 <= k < l < |order| ==> order[k] != order[l])
    && (forall i :: 0 <= i < |lats| ==> i in order)
    && (forall k, l :: 0 <= k < l < |order| ==>
          lats[order[k]] < lats[order[l]] || (lats[order[k]] == lats[order[l]] && order[k] < order[l]))
  }

  /** One position of `lats` per step of the visiting order. */
  predicate Indexes(lats: seq<real>, order: seq<nat>)
  {
    |order| == |lats| && forall k :: 0 <= k < |order| ==> order[k] < |lats|
  }

  /** Every latitude's cosine, the image size and the ideal coverage are positive. */
  predicate AllPositive(lats: seq<real>, cosDeg: real -> real, ideal: real, size: int)
  {
    forall i :: 0 <= i < |lats| ==> Positive(cosDeg(lats[i]), ideal, size)
  }

  /** The outer loop from position k of the sorted order, writing into `zooms` and `covs` by original index. */
  function ZoomsFrom(lats: seq<real>, cosDeg: real -> real, ideal: real, size: int, order: seq<nat>,
                     k: nat, carry: Carry, zooms: seq<int>, covs: seq<real>): (r: Result<(seq<int>, seq<real>), ZoomError>)
    requires Indexes(lats, order) && AllPositive(lats, cosDeg, ideal, size)
    requires k <= |order| && |zooms| == |covs| == |lats|
    ensures r.Success? ==> |r.value.0| == |r.value.1| == |lats|
    decreases |order| - k
  {
    if k == |order| then Success((zooms, covs))
    else
      var i := order[k];
      var (zoom, cov, next) := ScanFrom(cosDeg(lats[i]), ideal, size, 0, carry);
      match Decide(zoom, cov, next)
      case Failure(e) => Failure(e)
      case Success((z, v)) => ZoomsFrom(lats, cosDeg, ideal, size, order, k + 1, next, zooms[i := z], covs[i := v])
  }

  /** find_zoom_level's answer. */
  function FindZoomLevels(lats: seq<real>, cosDeg: real -> real, ideal: real, size: int, order: seq<nat>)
    : Result<(seq<int>, seq<real>), ZoomError>
    requires Indexes(lats, order) && AllPositive(lats, cosDeg, ideal, size)
  {
    ZoomsFrom(lats, cosDeg, ideal, size, order, 0, Carry(None, None), seq(|lats|, _ => 0), seq(|lats|, _ => 0.0))
  }

  /** What the scan leaves behind for a bracketed latitude, whatever the carried locals were. */
  lemma {:induction false} ScanBracketed(c: real, ideal: real, size: int, z: nat, carry: Carry)
    requires Positive(c, ideal, size) && Bracketed(c, ideal, size)
    requires z <= FirstFit(c, ideal, size, 0)
    requires z > 0 ==> carry.above == Some(Above(Square(Coverage(c, size, z - 1) / ideal), Coverage(c, size, z - 1)))
    ensures
      var f := FirstFit(c, ideal, size, 0);
      ScanFrom(c, ideal, size, z, carry) ==
        (f, Coverage(c, size, f), Carry(Some(Above(Square(Coverage(c, size, f - 1) / ideal), Coverage(c, size, f - 1))),
                                         Some(Square(ideal / Coverage(c, size, f)))))
    decreases MaxZoom - z
  {
    var f := FirstFit(c, ideal, size, 0);
    var cov := Coverage(c, size, z);
    if z < f {
      assert cov > ideal;
      ScanBracketed(c, ideal, size, z + 1, carry.(above := Some(Above(Square(cov / ideal), cov))));
    } else {
      assert z == f;
    }
  }

  /** For a bracketed latitude the stored zoom and coverage are BestZoom's, whatever latitude came before. */
  lemma DecideBracketed(c: real, ideal: real, size: int, carry: Carry)
    requires Positive(c, ideal, size) && Bracketed(c, ideal, size)
    ensures
      var (zoom, cov, next) := ScanFrom(c, ideal, size, 0, carry);
      var best := BestZoom(c, ideal, size);
      Decide(zoom, cov, next) == Success((best as int, Coverage(c, size, best)))
  {
    ScanBracketed(c, ideal, size, 0, carry);
  }

  /** Every latitude is bracketed. */
  predicate AllBracketed(lats: seq<real>, cosDeg: real -> real, ideal: real, size: int)
  {
    forall i :: 0 <= i < |lats| ==> Bracketed(cosDeg(lats[i]), ideal, size)
  }

  /** Index i of `zooms` and `covs` holds BestZoom of latitude i and its coverage. */
  predicate Settled(lats: seq<real>, cosDeg: real -> real, ideal: real, size: int,
                    zooms: seq<int>, covs: seq<real>, i: nat)
    requires i < |lats| && |zooms| == |covs| == |lats| && AllPositive(lats, cosDeg, ideal, size)
    requires AllBracketed(lats, cosDeg, ideal, size)
  {
    var c := cosDeg(lats[i]);
    zooms[i] == BestZoom(c, ideal, size) && covs[i] == Coverage(c, size, BestZoom(c, ideal, size))
  }

  lemma {:induction false} ZoomsFromBracketed(lats: seq<real>, cosDeg: real -> real, ideal: real, size: int,
                                              order: seq<nat>, k: nat, carry: Carry, zooms: seq<int>, covs: seq<real>)
    requires SortOrder(lats, order) && AllPositive(lats, cosDeg, ideal, size) && AllBracketed(lats, cosDeg, ideal, size)
    requires k <= |order| && |zooms| == |covs| == |lats|
    requires forall l :: 0 <= l < k ==> Settled(lats, cosDeg, ideal, size, zooms, covs, order[l])
    ensures
      var r := ZoomsFrom(lats, cosDeg, ideal, size, order, k, carry, zooms, covs);
      && r.Success? && |r.value.0| == |r.value.1| == |lats|
      && forall i :: 0 <= i < |lats| ==> Settled(lats, cosDeg, ideal, size, r.value.0, r.value.1, i)
    decreases |order| - k
  {
    if k == |order| {
      forall i | 0 <= i < |lats|
        ensures Settled(lats, cosDeg, ideal, size, zooms, covs, i)
      {
        assert i in order;
        var l :| 0 <= l < |order| && order[l] == i;
      }
    } else {
      var i := order[k];
      var c := cosDeg(lats[i]);
      DecideBracketed(c, ideal, size, carry);
      var scan := ScanFrom(c, ideal, size, 0, carry);
      var best := BestZoom(c, ideal, size);
      var zooms' := zooms[i := best as int];
      var covs' := covs[i := Coverage(c, size, best)];
      assert ZoomsFrom(lats, cosDeg, ideal, size, order, k, carry, zooms, covs)
          == ZoomsFrom(lats, cosDeg, ideal, size, order, k + 1, scan.2, zooms', covs');
      forall l | 0 <= l < k + 1
        ensures Settled(lats, cosDeg, ideal, size, zooms', covs', order[l])
      {
        if l < k {
          assert order[l] != i;
          assert Settled(lats, cosDeg, ideal, size, zooms, covs, order[l]);
        }
      }
      ZoomsFromBracketed(lats, cosDeg, ideal, size, order, k + 1, scan.2, zooms', covs');
    }
  }

  /**
   * When every latitude is bracketed, find_zoom_level succeeds and index i
   * holds BestZoom of latitude i and its coverage: the sort order and the
   * variables carried over from earlier latitudes make no difference.
   */
  lemma FindZoomLevelsBracketed(lats: seq<real>, cosDeg: real -> real, ideal: real, size: int, order: seq<nat>)
    requires SortOrder(lats, order) && AllPositive(lats, cosDeg, ideal, size) && AllBracketed(lats, cosDeg, ideal, size)
    ensures
      var r := FindZoomLevels(lats, cosDeg, ideal, size, order);
      && r.Success?
      && forall i :: 0 <= i < |lats| ==>
           && 0 <= r.value.0[i] <= MaxZoom
           && r.value.0[i] == BestZoom(cosDeg(lats[i]), ideal, size)
           && r.value.1[i] == Coverage(cosDeg(lats[i]), size, r.value.0[i])
  {
    var r := FindZoomLevels(lats, cosDeg, ideal, size, order);
    ZoomsFromBracketed(lats, cosDeg, ideal, size, order, 0, Carry(None, None), seq(|lats|, _ => 0), seq(|lats|, _ => 0.0));
    forall i | 0 <= i < |lats|
      ensures r.value.0[i] == BestZoom(cosDeg(lats[i]), ideal, size)
      ensures r.value.1[i] == Coverage(cosDeg(lats[i]), size, r.value.0[i])
    {
      assert Settled(lats, cosDeg, ideal, size, r.value.0, r.value.1, i);
    }
  }

  /** One latitude of the outer loop, once its zoom and coverage are decided. */
  lemma ZoomsFromStep(lats: seq<real>, cosDeg: real -> real, ideal: real, size: int, order: seq<nat>,
                      k: nat, carry: Carry, zooms: seq<int>, covs: seq<real>, zoom: nat, cov: real, next: Carry)
    requires Indexes(lats, order) && AllPositive(lats, cosDeg, ideal, size)
    requires k < |order| && |zooms| == |covs| == |lats|
    requires ScanFrom(cosDeg(lats[order[k]]), ideal, size, 0, carry) == (zoom, cov, next)
    ensures Decide(zoom, cov, next).Failure? ==>
      ZoomsFrom(lats, cosDeg, ideal, size, order, k, carry, zooms, covs) == Failure(UnboundVariable)
    ensures Decide(zoom, cov, next).Success? ==>
      var (z, v) := Decide(zoom, cov, next).value;
      ZoomsFrom(lats, cosDeg, ideal, size, order, k, carry, zooms, covs)
        == ZoomsFrom(lats, cosDeg, ideal, size, order, k + 1, next, zooms[order[k] := z], covs[order[k] := v])
  {
  }

  /** The carried locals as the specification sees them. */
  function CarryOf(prevRatio: Option<real>, prevCoverage: Option<real>, ratio: Option<real>): Carry
    requires prevRatio.Some? == prevCoverage.Some?
  {
    Carry(if prevRatio.Some? then Some(Above(prevRatio.value, prevCoverage.value)) else None, ratio)
  }

  /**
   * The inner loop of find_zoom_level for one latitude: from zoom 0 up,
   * record prev_ratio and the coverage while the coverage exceeds the
   * ideal, and stop at the first zoom where it does not, recording ratio.
   */
  method ScanZooms(c: real, ideal: real, size: int, prevRatio0: Option<real>, prevCoverage0: Option<real>, ratio0: Option<real>)
    returns (zoom: nat, coverage: real, prevRatio: Option<real>, prevCoverage: Option<real>, ratio: Option<real>)
    requires Positive(c, ideal, size) && prevRatio0.Some? == prevCoverage0.Some?
    ensures prevRatio.Some? == prevCoverage.Some?
    ensures (zoom, coverage, CarryOf(prevRatio, prevCoverage, ratio))
         == ScanFrom(c, ideal, size, 0, CarryOf(prevRatio0, prevCoverage0, ratio0))
  {
    prevRatio, prevCoverage, ratio := prevRatio0, prevCoverage0, ratio0;
    zoom := 0;
    while true
      invariant zoom <= MaxZoom && prevRatio.Some? == prevCoverage.Some?
      invariant ScanFrom(c, ideal, size, 0, CarryOf(prevRatio0, prevCoverage0, ratio0))
             == ScanFrom(c, ideal, size, zoom, CarryOf(prevRatio, prevCoverage, ratio))
      decreases MaxZoom - zoom
    {
      coverage := Coverage(c, size, zoom);
      if coverage > ideal {
        prevRatio := Some(Square(coverage / ideal));
        prevCoverage := Some(coverage);
        if zoom == MaxZoom {
          break;
        }
        zoom := zoom + 1;
      } else {
        ratio := Some(Square(ideal / coverage));
        break;
      }
    }
  }

  /**
   * find_zoom_level: for each latitude in sorted order, scan zoom levels up
   * from 0 until the coverage no longer exceeds the ideal, then keep that
   * zoom or the one before, whichever ratio is smaller. The answer is
   * FindZoomLevels, for any visiting order; for the sorted order,
   * FindZoomLevelsBracketed and FirstUnbracketedFails say what it is.
   */
  method FindZoomLevel(lats: seq<real>, cosDeg: real -> real, ideal: real, size: int, order: seq<nat>)
    returns (r: Result<(seq<int>, seq<real>), ZoomError>)
    requires Indexes(lats, order) && AllPositive(lats, cosDeg, ideal, size)
    ensures r == FindZoomLevels(lats, cosDeg, ideal, size, order)
  {
    var zoomLevels := new int[|lats|](_ => 0);
    var actualCoverage := new real[|lats|](_ => 0.0);
    var prevRatio: Option<real> := None;
    var prevCoverage: Option<real> := None;
    var ratio: Option<real> := None;
    assert zoomLevels[..] == seq(|lats|, _ => 0);
    assert actualCoverage[..] == seq(|lats|, _ => 0.0);
    for k := 0 to |order|
      invariant zoomLevels.Length == actualCoverage.Length == |lats|
      invariant prevRatio.Some? == prevCoverage.Some?
      invariant FindZoomLevels(lats, cosDeg, ideal, size, order)
             == ZoomsFrom(lats, cosDeg, ideal, size, order, k, CarryOf(prevRatio, prevCoverage, ratio),
                          zoomLevels[..], actualCoverage[..])
    {
      var index := order[k];
      var c := cosDeg(lats[index]);
      ghost var before := CarryOf(prevRatio, prevCoverage, ratio);
      ghost var zooms, covs := zoomLevels[..], actualCoverage[..];
      var zoom, coverage;
      zoom, coverage, prevRatio, prevCoverage, ratio := ScanZooms(c, ideal, size, prevRatio, prevCoverage, ratio);
      ghost var next := CarryOf(prevRatio, prevCoverage, ratio);
      ZoomsFromStep(lats, cosDeg, ideal, size, order, k, before, zooms, covs, zoom, coverage, next);
      if ratio.None? || prevRatio.None? {
        return Failure(UnboundVariable);
      }
      var z: int, v: real;
      if ratio.value <= prevRatio.value {
        z, v := zoom, coverage;
      } else {
        z, v := zoom as int - 1, prevCoverage.value;
      }
      assert Decide(zoom, coverage, next) == Success((z, v));
      zoomLevels[index] := z;
      actualCoverage[index] := v;
      assert zoomLevels[..] == zooms[index := z];
      assert actualCoverage[..] == covs[index := v];
    }
    return Success((zoomLevels[..], actualCoverage[..]));
  }

  /**
   * Without the bracketing precondition the first latitude in sorted order
   * reads an unassigned variable: if even zoom 21 covers too much, `ratio`
   * was never set; if zoom 0 already fits, `prev_ratio` was never set.
   */
  lemma FirstUnbracketedFails(lats: seq<real>, cosDeg: real -> real, ideal: real, size: int, order: seq<nat>)
    requires SortOrder(lats, order) && AllPositive(lats, cosDeg, ideal, size) && |lats| >= 1
    requires !Bracketed(cosDeg(lats[order[0]]), ideal, size)
    ensures FindZoomLevels(lats, cosDeg, ideal, size, order) == Failure(UnboundVariable)
  {
    var c := cosDeg(lats[order[0]]);
    var r := ScanFrom(c, ideal, size, 0, Carry(None, None));
    if Coverage(c, size, 0) <= ideal {
      assert r.2.above.None?;
    } else {
      assert Coverage(c, size, MaxZoom) > ideal;
      ScanNeverFits(c, ideal, size, 0, Carry(None, None));
    }
  }

  /** If no zoom from z on fits, the scan never assigns `ratio`. */
  lemma {:induction false} ScanNeverFits(c: real, ideal: real, size: int, z: nat, carry: Carry)
    requires Positive(c, ideal, size) && z <= MaxZoom && Coverage(c, size, MaxZoom) > ideal
    ensures ScanFrom(c, ideal, size, z, carry).2.below == carry.below
    decreases MaxZoom - z
  {
    if z < MaxZoom {
      CoverageDecreases(c, size, z, MaxZoom);
      var cov := Coverage(c, size, z);
      ScanNeverFits(c, ideal, size, z + 1, carry.(above := Some(Above(Square(cov / ideal), cov))));
    }
  }

  // ---------------------------------------------------------------------
  // get_satellite_image: downloads and image_coverage.csv
  // ---------------------------------------------------------------------

  /** The answer of the Static Maps request for the i-th location at a zoom level. */
  type Download = (nat, int) -> seq<bv8>

  /** Text of a number as numpy writes it. */
  type Show = real -> string

  /** image_ratio: the source multiplies by it, so an int and a float behave differently. */
  datatype Ratio = IntRatio(n: int) | FloatRatio(x: real)

  function RatioValue(ratio: Ratio): real
  {
    match ratio
    case IntRatio(n) => n as real
    case FloatRatio(x) => x
  }

  /** A line of image_coverage.csv; a missing cell (NaN) is None. */
  datatype CoverageLine = CoverageHeader | CoverageRow(id: Option<string>, coverage: Option<string>)

  datatype SatelliteError =
    | Zoom(cause: ZoomError)        // find_zoom_level raised
    | MissingLocation(index: nat)   // urls[i] for an ID beyond the last location
    | MaskLength                    // skip mask and coverage array of different lengths
    | TextTimesFloat                // a str Series multiplied by a float image_ratio

  /**
   * The download loop over the first n IDs, in order: an ID whose png is
   * already in the directory is skipped, any other is fetched at its zoom
   * and written. Returns the directory's images and the skip flags.
   */
  function Fetch(images: map<string, seq<bv8>>, ids: seq<string>, zooms: seq<int>, download: Download, n: nat)
    : (r: (map<string, seq<bv8>>, seq<bool>))
    requires n <= |ids| && n <= |zooms|
    ensures |r.1| == n
    decreases n
  {
    if n == 0 then (images, [])
    else
      var (before, skip) := Fetch(images, ids, zooms, download, n - 1);
      var id := ids[n - 1];
      if id in before then (before, skip + [true])
      else (before[id := download(n - 1, zooms[n - 1])], skip + [false])
  }

  /** The IDs among the first n. */
  function Seen(ids: seq<string>, n: nat): set<string>
    requires n <= |ids|
  {
    set i | 0 <= i < n :: ids[i]
  }

  lemma SeenStep(ids: seq<string>, n: nat)
    requires n < |ids|
    ensures Seen(ids, n + 1) == Seen(ids, n) + {ids[n]}
  {
    assert ids[n] in Seen(ids, n + 1);
  }

  /** After the loop the directory holds exactly the old images and one per ID seen. */
  lemma {:induction false} FetchKeys(images: map<string, seq<bv8>>, ids: seq<string>, zooms: seq<int>,
                                     download: Download, n: nat)
    requires n <= |ids| && n <= |zooms|
    ensures Fetch(images, ids, zooms, download, n).0.Keys == images.Keys + Seen(ids, n)
    decreases n
  {
    if n > 0 {
      FetchKeys(images, ids, zooms, download, n - 1);
      SeenStep(ids, n - 1);
    }
  }

  /** The skip rule keeps what was there: an image already in the directory is never replaced. */
  lemma {:induction false} FetchKeepsExisting(images: map<string, seq<bv8>>, ids: seq<string>, zooms: seq<int>,
                                              download: Download, n: nat, id: string)
    requires n <= |ids| && n <= |zooms| && id in images
    ensures id in Fetch(images, ids, zooms, download, n).0
    ensures Fetch(images, ids, zooms, download, n).0[id] == images[id]
    decreases n
  {
    if n > 0 {
      FetchKeepsExisting(images, ids, zooms, download, n - 1, id);
    }
  }

  /** The flag of ID i is fixed at its turn: skipped exactly when its png is there by then. */
  lemma {:induction false} FetchSkipFlag(images: map<string, seq<bv8>>, ids: seq<string>, zooms: seq<int>,
                                         download: Download, n: nat, i: nat)
    requires n <= |ids| && n <= |zooms| && i < n
    ensures Fetch(images, ids, zooms, download, n).1[i] <==> ids[i] in Fetch(images, ids, zooms, download, i).0
    decreases n
  {
    if i < n - 1 {
      FetchSkipFlag(images, ids, zooms, download, n - 1, i);
    }
  }

  /**
   * The skip rule: ID i is skipped exactly when its png existed before the
   * run or an earlier occurrence of the same ID wrote it.
   */
  lemma FetchSkipsExisting(images: map<string, seq<bv8>>, ids: seq<string>, zooms: seq<int>,
                           download: Download, n: nat, i: nat)
    requires n <= |ids| && n <= |zooms| && i < n
    ensures Fetch(images, ids, zooms, download, n).1[i] <==> ids[i] in images || ids[i] in ids[..i]
  {
    FetchSkipFlag(images, ids, zooms, download, n, i);
    FetchKeys(images, ids, zooms, download, i);
    if ids[i] in ids[..i] {
      var j :| 0 <= j < i && ids[..i][j] == ids[i];
      assert ids[j] in Seen(ids, i);
    }
    if ids[i] in Seen(ids, i) {
      var j :| 0 <= j < i && ids[j] == ids[i];
      assert ids[..i][j] == ids[i];
    }
  }

  /** An ID that is not skipped ends up with the bytes downloaded for it at its zoom. */
  lemma {:induction false} FetchWritesDownload(images: map<string, seq<bv8>>, ids: seq<string>, zooms: seq<int>,
                                               download: Download, n: nat, i: nat)
    requires n <= |ids| && n <= |zooms| && i < n
    requires !Fetch(images, ids, zooms, download, n).1[i]
    ensures ids[i] in Fetch(images, ids, zooms, download, n).0
    ensures Fetch(images, ids, zooms, download, n).0[ids[i]] == download(i, zooms[i])
    decreases n
  {
    FetchSkipFlag(images, ids, zooms, download, n, i);
    if i < n - 1 {
      FetchSkipFlag(images, ids, zooms, download, n - 1, i);
      FetchWritesDownload(images, ids, zooms, download, n - 1, i);
      FetchKeysGrow(images, ids, zooms, download, i + 1, n - 1, ids[i]);
    }
  }

  /** A png written stays: later turns only add files. */
  lemma {:induction false} FetchKeysGrow(images: map<string, seq<bv8>>, ids: seq<string>, zooms: seq<int>,
                                         download: Download, m: nat, n: nat, id: string)
    requires m <= n <= |ids| && n <= |zooms|
    requires id in Fetch(images, ids, zooms, download, m).0
    ensures id in Fetch(images, ids, zooms, download, n).0
    ensures Fetch(images, ids, zooms, download, n).0[id] == Fetch(images, ids, zooms, download, m).0[id]
    decreases n
  {
    if m < n {
      FetchKeysGrow(images, ids, zooms, download, m, n - 1, id);
    }
  }

  /** Python's `text * n` for an int n: n copies, none when n <= 0. */
  function Repeat(text: string, n: int): string
    decreases n
  {
    if n <= 0 then "" else text + Repeat(text, n - 1)
  }

  /** `text * n` is max(n, 0) back-to-back copies: character i is text[i % |text|]. */
  lemma {:induction false} RepeatCopies(text: string, n: int)
    ensures |Repeat(text, n)| == (if n > 0 then n else 0) * |text|
    ensures forall i :: 0 <= i < |Repeat(text, n)| ==> Repeat(text, n)[i] == text[i % |text|]
    decreases n
  {
    if n > 0 {
      RepeatCopies(text, n - 1);
      var r := Repeat(text, n);
      var rest := Repeat(text, n - 1);
      assert r == text + rest;
      forall i | 0 <= i < |r| ensures r[i] == text[i % |text|] {
        if i >= |text| {
          assert r[i] == rest[i - |text|];
          ShiftMod(i, |text|);
        }
      }
    }
  }

  lemma ShiftMod(i: int, m: int)
    requires 0 < m <= i
    ensures (i - m) % m == i % m
  {
    var q, r := (i - m) / m, (i - m) % m;
    var q', r' := i / m, i % m;
    assert i == (q + 1) * m + r by {
      assert (q + 1) * m == q * m + m;
    }
    var d := q + 1 - q';
    assert d * m == r' - r by {
      assert d * m == (q + 1) * m - q' * m;
    }
    MultipleAwayFromZero(d, m);
  }

  /** A non-zero multiple of m is at least m away from zero. */
  lemma MultipleAwayFromZero(d: int, m: int)
    requires m > 0
    ensures d == 0 || d * m >= m || d * m <= -m
  {
    if d > 0 {
      NonNegProduct(d - 1, m);
      assert d * m == (d - 1) * m + m;
    } else if d < 0 {
      NonNegProduct(-d - 1, m);
      assert -d * m == (-d - 1) * m + m;
    }
  }

  lemma NonNegProduct(a: int, b: int)
    requires a >= 0 && b >= 0
    ensures a * b >= 0
  {
  }

  /** The coverage cell, "horizontal x vertical", meant as the horizontal coverage and that times image_ratio. */
  function CoverageText(show: Show, horizontal: real, ratio: Ratio): string
  {
    show(horizontal) + "x" + show(horizontal * RatioValue(ratio))
  }

  /**
   * The coverage cell as written: the horizontal coverage is already text
   * when it is multiplied by image_ratio, so an int ratio repeats the text
   * and a float ratio raises TypeError.
   */
  function CoverageTextAsWritten(show: Show, horizontal: real, ratio: Ratio): Result<string, SatelliteError>
  {
    match ratio
    case IntRatio(n) => Success(show(horizontal) + "x" + Repeat(show(horizontal), n))
    case FloatRatio(_) => Failure(TextTimesFloat)
  }

  /** How many of the first n IDs were downloaded (not skipped). */
  function Downloads(skip: seq<bool>, n: nat): (d: nat)
    requires n <= |skip|
    ensures d <= n
  {
    if n == 0 then 0 else Downloads(skip, n - 1) + (if skip[n - 1] then 0 else 1)
  }

  /** The rows get_satellite_image means to append for the first n IDs: one per download, in order, with its coverage. */
  function CoverageRows(ids: seq<string>, actual: seq<real>, skip: seq<bool>, ratio: Ratio, show: Show, n: nat)
    : (r: seq<CoverageLine>)
    requires n <= |ids| == |actual| == |skip|
    ensures |r| == Downloads(skip, n)
    ensures forall row :: row in r ==> row.CoverageRow? && row.id.Some? && row.coverage.Some?
  {
    if n == 0 then []
    else
      var rest := CoverageRows(ids, actual, skip, ratio, show, n - 1);
      if skip[n - 1] then rest
      else rest + [CoverageRow(Some(ids[n - 1]), Some(CoverageText(show, actual[n - 1], ratio)))]
  }

  /**
   * Row Downloads(skip, i) of the intended rows belongs to the i-th ID when
   * it was downloaded: its own ID and its own coverage. With the row count
   * being the number of downloads, the rows are exactly the downloaded IDs
   * in order, and a skipped ID has no row.
   */
  lemma {:induction false} CoverageRowsAt(ids: seq<string>, actual: seq<real>, skip: seq<bool>, ratio: Ratio, show: Show,
                                          n: nat, i: nat)
    requires n <= |ids| == |actual| == |skip| && i < n && !skip[i]
    ensures Downloads(skip, i) < |CoverageRows(ids, actual, skip, ratio, show, n)|
    ensures CoverageRows(ids, actual, skip, ratio, show, n)[Downloads(skip, i)]
         == CoverageRow(Some(ids[i]), Some(CoverageText(show, actual[i], ratio)))
    decreases n
  {
    var rest := CoverageRows(ids, actual, skip, ratio, show, n - 1);
    if i < n - 1 {
      CoverageRowsAt(ids, actual, skip, ratio, show, n - 1, i);
      assert CoverageRows(ids, actual, skip, ratio, show, n)[..|rest|] == rest;
    } else {
      assert |rest| == Downloads(skip, i);
    }
  }

  /** The coverage texts of the downloads among the first n IDs, as written, for an int image_ratio k. */
  function TextsAsWritten(actual: seq<real>, skip: seq<bool>, show: Show, k: int, n: nat): (r: seq<string>)
    requires n <= |actual| == |skip|
    ensures |r| == Downloads(skip, n)
  {
    if n == 0 then []
    else
      var rest := TextsAsWritten(actual, skip, show, k, n - 1);
      if skip[n - 1] then rest else rest + [CoverageTextAsWritten(show, actual[n - 1], IntRatio(k)).value]
  }

  /**
   * The rows as written: the 'id' column keeps the original positions of
   * the downloaded IDs while the coverage column is renumbered from 0, and
   * the data frame lines the two up by label. Label L gives a row when ID L
   * was downloaded or L is below the number of downloads; a cell is missing
   * when its column has no label L. A float image_ratio fails as soon as
   * there is a coverage text to multiply.
   */
  function CoverageRowsAsWritten(ids: seq<string>, actual: seq<real>, skip: seq<bool>, ratio: Ratio, show: Show)
    : Result<seq<CoverageLine>, SatelliteError>
    requires |ids| == |actual| == |skip|
  {
    if Downloads(skip, |skip|) > 0 && ratio.FloatRatio? then Failure(TextTimesFloat)
    else
      var k := if ratio.IntRatio? then ratio.n else 0;
      Success(AlignedRows(ids, skip, TextsAsWritten(actual, skip, show, k, |skip|), |ids|))
  }

  /** The rows for labels 0 .. n-1 of the union of the two columns' labels. */
  function AlignedRows(ids: seq<string>, skip: seq<bool>, texts: seq<string>, n: nat): seq<CoverageLine>
    requires n <= |ids| == |skip|
  {
    if n == 0 then []
    else
      var l := n - 1;
      var rest := AlignedRows(ids, skip, texts, l);
      if !skip[l] || l < |texts| then
        rest + [CoverageRow(if !skip[l] then Some(ids[l]) else None, if l < |texts| then Some(texts[l]) else None)]
      else rest
  }

  /**
   * Each row as written has an ID cell or a coverage cell, and an ID cell
   * always names a downloaded ID (its own label).
   */
  lemma {:induction false} AlignedRowsIds(ids: seq<string>, skip: seq<bool>, texts: seq<string>, n: nat)
    requires n <= |ids| == |skip|
    ensures forall row :: row in AlignedRows(ids, skip, texts, n) ==>
      && row.CoverageRow?
      && (row.id.Some? || row.coverage.Some?)
      && (row.id.Some? ==> exists l :: 0 <= l < n && !skip[l] && row.id.value == ids[l])
    decreases n
  {
    if n > 0 {
      AlignedRowsIds(ids, skip, texts, n - 1);
      forall row | row in AlignedRows(ids, skip, texts, n) && row.id.Some?
        ensures exists l :: 0 <= l < n && !skip[l] && row.id.value == ids[l]
      {
        if row !in AlignedRows(ids, skip, texts, n - 1) {
          assert !skip[n - 1] && row.id.value == ids[n - 1];
        }
      }
    }
  }

  /** In the rows as written, an ID cell only ever names a downloaded ID. */
  lemma AsWrittenIdsDownloaded(ids: seq<string>, actual: seq<real>, skip: seq<bool>, ratio: Ratio, show: Show)
    requires |ids| == |actual| == |skip|
    ensures CoverageRowsAsWritten(ids, actual, skip, ratio, show).Success? ==>
      forall row :: row in CoverageRowsAsWritten(ids, actual, skip, ratio, show).value ==>
        && row.CoverageRow?
        && (row.id.Some? ==> exists l :: 0 <= l < |ids| && !skip[l] && row.id.value == ids[l])
  {
    var k := if ratio.IntRatio? then ratio.n else 0;
    AlignedRowsIds(ids, skip, TextsAsWritten(actual, skip, show, k, |skip|), |ids|);
  }

  /**
   * When the first ID is skipped and the second downloaded, the second ID's
   * coverage lands on a row without an ID and its own row has no coverage.
   */
  lemma SkippedRowMisaligned(show: Show, a: real, b: real)
    ensures CoverageRowsAsWritten(["a", "b"], [a, b], [true, false], IntRatio(1), show)
         == Success([CoverageRow(None, Some(show(b) + "x" + show(b))), CoverageRow(Some("b"), None)])
    ensures CoverageRows(["a", "b"], [a, b], [true, false], IntRatio(1), show, 2)
         == [CoverageRow(Some("b"), Some(show(b) + "x" + show(b)))]
  {
    var skip := [true, false];
    var text := show(b) + "x" + show(b);
    assert Repeat(show(b), 1) == show(b) + "";
    assert show(b) + "" == show(b);
    assert b * RatioValue(IntRatio(1)) == b;
    var texts := TextsAsWritten([a, b], skip, show, 1, 2);
    assert TextsAsWritten([a, b], skip, show, 1, 1) == [];
    assert texts == [text];
    assert AlignedRows(["a", "b"], skip, texts, 1) == [CoverageRow(None, Some(text))];
    assert AlignedRows(["a", "b"], skip, texts, 2) == [CoverageRow(None, Some(text)), CoverageRow(Some("b"), None)];
    assert CoverageRows(["a", "b"], [a, b], skip, IntRatio(1), show, 1) == [];
    assert CoverageRows(["a", "b"], [a, b], skip, IntRatio(1), show, 2) == [CoverageRow(Some("b"), Some(text))];
  }

  /** With image_ratio 2 a horizontal coverage of 2.0 km is written "2.0x2.02.0" instead of "2.0x4.0". */
  lemma VerticalRepeatsText(show: Show)
    requires show(2.0) == "2.0" && show(4.0) == "4.0"
    ensures CoverageTextAsWritten(show, 2.0, IntRatio(2)) == Success("2.0x2.02.0")
    ensures CoverageText(show, 2.0, IntRatio(2)) == "2.0x4.0"
  {
    assert Repeat("2.0", 0) == "";
    assert Repeat("2.0", 1) == "2.0" + "";
    assert "2.0" + "" == "2.0";
    assert Repeat("2.0", 2) == "2.0" + "2.0";
    assert 2.0 * RatioValue(IntRatio(2)) == 4.0;
    assert "2.0" + "x" + ("2.0" + "2.0") == "2.0x2.02.0";
    assert "2.0" + "x" + "4.0" == "2.0x4.0";
  }

  /** The first m IDs were downloaded and the rest skipped. */
  predicate SkippedFrom(skip: seq<bool>, m: nat)
  {
    m <= |skip| && forall i :: 0 <= i < |skip| ==> (skip[i] <==> i >= m)
  }

  lemma {:induction false} DownloadsOfSkippedFrom(skip: seq<bool>, m: nat, n: nat)
    requires SkippedFrom(skip, m) && n <= |skip|
    ensures Downloads(skip, n) == if n <= m then n else m
    decreases n
  {
    if n > 0 {
      DownloadsOfSkippedFrom(skip, m, n - 1);
    }
  }

  /** With image_ratio 1 the text written for download L is the intended one. */
  lemma {:induction false} TextsOfSkippedFrom(actual: seq<real>, skip: seq<bool>, show: Show, m: nat, n: nat, l: nat)
    requires |actual| == |skip| && SkippedFrom(skip, m) && n <= |skip| && l < n && l < m
    ensures
      && l < |TextsAsWritten(actual, skip, show, 1, n)|
      && TextsAsWritten(actual, skip, show, 1, n)[l] == CoverageText(show, actual[l], IntRatio(1))
    decreases n
  {
    DownloadsOfSkippedFrom(skip, m, n);
    DownloadsOfSkippedFrom(skip, m, n - 1);
    if l < n - 1 {
      TextsOfSkippedFrom(actual, skip, show, m, n - 1, l);
    } else {
      var h := show(actual[l]);
      assert Repeat(h, 1) == h + "";
      assert h + "" == h;
      assert actual[l] * RatioValue(IntRatio(1)) == actual[l];
    }
  }

  lemma {:induction false} AlignedRowsOfSkippedFrom(ids: seq<string>, actual: seq<real>, skip: seq<bool>, show: Show,
                                                    m: nat, n: nat)
    requires |ids| == |actual| == |skip| && SkippedFrom(skip, m) && n <= m
    ensures
      AlignedRows(ids, skip, TextsAsWritten(actual, skip, show, 1, |skip|), n)
        == CoverageRows(ids, actual, skip, IntRatio(1), show, n)
    decreases n
  {
    DownloadsOfSkippedFrom(skip, m, |skip|);
    if n > 0 {
      AlignedRowsOfSkippedFrom(ids, actual, skip, show, m, n - 1);
      TextsOfSkippedFrom(actual, skip, show, m, |skip|, n - 1);
    }
  }

  /** Past the downloads, a trailing run of skipped IDs adds no rows. */
  lemma {:induction false} AlignedRowsTail(ids: seq<string>, skip: seq<bool>, texts: seq<string>, m: nat, n: nat)
    requires m <= n <= |ids| == |skip| && |texts| == m
    requires forall i :: m <= i < |skip| ==> skip[i]
    ensures AlignedRows(ids, skip, texts, n) == AlignedRows(ids, skip, texts, m)
    decreases n
  {
    if n > m {
      AlignedRowsTail(ids, skip, texts, m, n - 1);
    }
  }

  /**
   * The misalignment needs a skipped ID before a downloaded one: when the
   * skipped IDs all come last (in particular when none is skipped) and
   * image_ratio is 1, the rows as written are the intended rows.
   */
  lemma AsWrittenAgreesWhenSkipsTrail(ids: seq<string>, actual: seq<real>, skip: seq<bool>, show: Show, m: nat)
    requires |ids| == |actual| == |skip| && SkippedFrom(skip, m)
    ensures CoverageRowsAsWritten(ids, actual, skip, IntRatio(1), show)
         == Success(CoverageRows(ids, actual, skip, IntRatio(1), show, |ids|))
  {
    DownloadsOfSkippedFrom(skip, m, |skip|);
    var texts := TextsAsWritten(actual, skip, show, 1, |skip|);
    AlignedRowsOfSkippedFrom(ids, actual, skip, show, m, m);
    AlignedRowsTail(ids, skip, texts, m, |ids|);
    RowsTail(ids, actual, skip, show, m, |ids|);
  }

  /** Likewise the intended rows gain nothing from trailing skipped IDs. */
  lemma {:induction false} RowsTail(ids: seq<string>, actual: seq<real>, skip: seq<bool>, show: Show, m: nat, n: nat)
    requires |ids| == |actual| == |skip| && SkippedFrom(skip, m) && m <= n <= |ids|
    ensures CoverageRows(ids, actual, skip, IntRatio(1), show, n) == CoverageRows(ids, actual, skip, IntRatio(1), show, m)
    decreases n
  {
    if n > m {
      RowsTail(ids, actual, skip, show, m, n - 1);
    }
  }

  /** image_coverage.csv after the run: a header only when the directory was just created, otherwise appended. */
  function Journal(csv: Option<seq<CoverageLine>>, dirExisted: bool, rows: seq<CoverageLine>): Option<seq<CoverageLine>>
  {
    if dirExisted then Some((if csv.Some? then csv.value else []) + rows)
    else Some([CoverageHeader] + rows)
  }

  /**
   * image_coverage.csv always exists afterwards and ends with the new rows.
   * In a directory that existed, what the csv held is kept as a prefix and
   * no header is added; in a new directory the file is the header and the
   * rows.
   */
  lemma JournalAppends(csv: Option<seq<CoverageLine>>, dirExisted: bool, rows: seq<CoverageLine>)
    ensures var r := Journal(csv, dirExisted, rows);
      && r.Some?
      && |rows| <= |r.value|
      && r.value[|r.value| - |rows|..] == rows
      && (dirExisted && csv.Some? ==> r.value[..|csv.value|] == csv.value && |r.value| == |csv.value| + |rows|)
      && (dirExisted && csv.None? ==> r.value == rows)
      && (!dirExisted ==> |r.value| == |rows| + 1 && r.value[0] == CoverageHeader)
  {
    var r := Journal(csv, dirExisted, rows).value;
    var prior := if dirExisted then (if csv.Some? then csv.value else []) else [CoverageHeader];
    assert r == prior + rows;
    assert r[..|prior|] == prior;
    assert r[|prior|..] == rows;
  }

  /** The output directory: its "{ID}.png" images and its image_coverage.csv. */
  class SatelliteStore {
    var dirExists: bool
    var images: map<string, seq<bv8>>
    var coverageCsv: Option<seq<CoverageLine>>

    /** A directory that does not exist holds no files. */
    ghost predicate Valid()
      reads this
    {
      !dirExists ==> images == map[] && coverageCsv.None?
    }

    constructor(dirExists: bool, images: map<string, seq<bv8>>, coverageCsv: Option<seq<CoverageLine>>)
      requires !dirExists ==> images == map[] && coverageCsv.None?
      ensures Valid()
      ensures this.dirExists == dirExists && this.images == images && this.coverageCsv == coverageCsv
    {
      this.dirExists := dirExists;
      this.images := images;
      this.coverageCsv := coverageCsv;
    }

    /** The download loop over the IDs: skip those whose png exists, fetch the rest. */
    method FetchImages(ids: seq<string>, zooms: seq<int>, download: Download) returns (skip: seq<bool>, missing: bool)
      modifies this
      ensures dirExists == old(dirExists) && coverageCsv == old(coverageCsv)
      ensures missing <==> |ids| > |zooms|
      ensures
        var n := if |ids| <= |zooms| then |ids| else |zooms|;
        (images, skip) == Fetch(old(images), ids, zooms, download, n)
    {
      skip := [];
      var i := 0;
      while i < |ids|
        invariant 0 <= i <= |ids| && i <= |zooms|
        invariant dirExists == old(dirExists) && coverageCsv == old(coverageCsv)
        invariant (images, skip) == Fetch(old(images), ids, zooms, download, i)
      {
        if i >= |zooms| {
          return skip, true;
        }
        if ids[i] in images {
          skip := skip + [true];
        } else {
          images := images[ids[i] := download(i, zooms[i])];
          skip := skip + [false];
        }
        i := i + 1;
      }
      return skip, false;
    }

    /**
     * get_satellite_image: choose the zoom levels, create the directory if
     * needed, download what is missing, and record the coverage of the new
     * images in image_coverage.csv.
     */
    method GetSatelliteImage(ids: seq<string>, lats: seq<real>, cosDeg: real -> real, ideal: real, size: int,
                             order: seq<nat>, ratio: Ratio, show: Show, download: Download)
      returns (error: Option<SatelliteError>)
      requires Valid() && SortOrder(lats, order) && AllPositive(lats, cosDeg, ideal, size)
      modifies this
      ensures Valid()
      ensures FindZoomLevels(lats, cosDeg, ideal, size, order).Failure? ==>
        && error == Some(Zoom(FindZoomLevels(lats, cosDeg, ideal, size, order).error))
        && dirExists == old(dirExists) && images == old(images) && coverageCsv == old(coverageCsv)
      ensures FindZoomLevels(lats, cosDeg, ideal, size, order).Success? ==>
        var (zooms, actual) := FindZoomLevels(lats, cosDeg, ideal, size, order).value;
        var n := if |ids| <= |lats| then |ids| else |lats|;
        var (fetched, skip) := Fetch(old(images), ids, zooms, download, n);
        && dirExists
        && images == fetched
        && (|ids| > |lats| ==> error == Some(MissingLocation(|lats|)) && coverageCsv == old(coverageCsv))
        && (|ids| < |lats| ==> error == Some(MaskLength) && coverageCsv == old(coverageCsv))
        && (|ids| == |lats| ==>
              error.None? && coverageCsv == Journal(old(coverageCsv), old(dirExists), CoverageRows(ids, actual, skip, ratio, show, |ids|)))
    {
      var zoomed := FindZoomLevel(lats, cosDeg, ideal, size, order);
      if zoomed.Failure? {
        return Some(Zoom(zoomed.error));
      }
      var (zooms, actual) := zoomed.value;
      var csvExist := dirExists;
      if !dirExists {
        dirExists := true;
      }
      var skip, missing := FetchImages(ids, zooms, download);
      if missing {
        return Some(MissingLocation(|lats|));
      }
      if |skip| != |actual| {
        return Some(MaskLength);
      }
      var rows := CoverageRows(ids, actual, skip, ratio, show, |ids|);
      if csvExist {
        coverageCsv := Some((if coverageCsv.Some? then coverageCsv.value else []) + rows);
      } else {
        coverageCsv := Some([CoverageHeader] + rows);
      }
      return None;
    }
  }
}
