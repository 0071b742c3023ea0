/**
 * Street View sampling and resume logic of gmap_retrieval/street_view.py:
 * the argument checks and broadcasting of get_lat_lon, the short-circuit
 * scan of is_gsv_available, and the per-ID job of get_street_view_image
 * (resume count, bounded rejection sampling, first-unused file naming,
 * loc.csv journal).
 *
 * The spherical trigonometry of get_lat_lon is a parameter (`destination`),
 * random draws and metadata statuses are given per round (`Trial`), and an
 * image download is a function from the request number to its bytes.
 */
module StreetView {
  import opened Basics

  /** A location as the source passes it around: a "latitude,longitude" string. */
  type Location = string

  // ---------------------------------------------------------------------
  // get_lat_lon: argument checks and broadcasting
  // ---------------------------------------------------------------------

  /** A Python argument that is either a scalar or array-like. */
  datatype Arg<T> = Scalar(value: T) | Many(items: seq<T>)

  /** The ValueErrors (and the numpy failures) that get_lat_lon can end in. */
  datatype LatLonError =
    | DistanceArrayDirectionScalar  // d is array-like, tc is not
    | DistanceDirectionLength       // len(d) != len(tc)
    | LocArrayDistanceScalar        // loc is array-like, d is not
    | LocDistanceLength             // len(loc) != len(d)
    | DistanceScalarDirectionArray  // d is a scalar, tc is array-like (rejected only after correction)
    | DistanceTooLarge              // some distance above half the circumference
    | DirectionOutOfRange           // some direction below 0 or above 2 pi
    | MalformedLocation             // a location row is not a "lat,lon" pair
    | EmptyBatch                    // zero locations: loc[:, 0] on a 1-d array

  /** One offset request: from `origin`, go `distance` km in direction `direction` (radians). */
  datatype Offset = Offset(origin: Location, distance: real, direction: real)

  /** Earth's circumference in km, as in the source. */
  const Circumference: real := 40075.0

  /** 2 * numpy.pi, written out as the exact value of the IEEE double. */
  const TwoPi: real := 6.28318530717958623199592693708837032318115234375

  function Commas(s: string): nat
  {
    if s == [] then 0 else (if s[0] == ',' then 1 else 0) + Commas(s[1..])
  }

  /**
   * A string that splits on "," into exactly two non-empty parts, which is
   * what float-parsing the rows of `l.split(",")` needs. The digits
   * themselves are not checked.
   */
  predicate IsLatLonPair(s: Location)
  {
    |s| >= 3 && Commas(s) == 1 && s[0] != ',' && s[|s| - 1] != ','
  }

  function Values<T>(a: Arg<T>): seq<T>
  {
    if a.Scalar? then [a.value] else a.items
  }

  /** The number of offsets a call produces: one per distance. */
  function Width<T>(a: Arg<T>): nat
  {
    |Values(a)|
  }

  /** The i-th value of a broadcast argument: a scalar stands for every position. */
  function ValueAt<T>(a: Arg<T>, i: nat): T
    requires a.Many? ==> i < |a.items|
  {
    if a.Scalar? then a.value else a.items[i]
  }

  /** The argument shapes that the docstring of get_lat_lon allows. */
  predicate ShapesAgree(loc: Arg<Location>, d: Arg<real>, tc: Arg<real>)
  {
    && d.Many? == tc.Many?
    && (d.Many? ==> |tc.items| == |d.items|)
    && (loc.Many? ==> d.Many? && |loc.items| == |d.items|)
  }

  /** What the range checks and the parsing demand of one offset request. */
  predicate Admissible(origin: Location, distance: real, direction: real)
  {
    && distance <= Circumference / 2.0
    && 0.0 <= direction <= TwoPi
    && IsLatLonPair(origin)
  }

  /** The length checks of get_lat_lon, in the order the source makes them. */
  function ShapeCheck(loc: Arg<Location>, d: Arg<real>, tc: Arg<real>): Option<LatLonError>
  {
    if d.Many? && tc.Scalar? then Some(DistanceArrayDirectionScalar)
    else if d.Many? && |d.items| != |tc.items| then Some(DistanceDirectionLength)
    else if loc.Many? && d.Scalar? then Some(LocArrayDistanceScalar)
    else if loc.Many? && |loc.items| != |d.items| then Some(LocDistanceLength)
    else None
  }

  /** The distance check, then the direction check. */
  function RangeCheck(ds: seq<real>, tcs: seq<real>): Option<LatLonError>
  {
    if exists i :: 0 <= i < |ds| && ds[i] > Circumference / 2.0 then Some(DistanceTooLarge)
    else if exists i :: 0 <= i < |tcs| && (tcs[i] < 0.0 || tcs[i] > TwoPi) then Some(DirectionOutOfRange)
    else None
  }

  /** Parsing the location rows into an (n, 2) float array and taking its columns. */
  function ParseCheck(locs: seq<Location>): Option<LatLonError>
  {
    if exists i :: 0 <= i < |locs| && !IsLatLonPair(locs[i]) then Some(MalformedLocation)
    else if locs == [] then Some(EmptyBatch)
    else None
  }

  /** A scalar `loc` repeated once per distance; an array-like `loc` as it is. */
  function Broadcast(loc: Arg<Location>, n: nat): seq<Location>
  {
    if loc.Many? then loc.items else seq(n, _ => loc.value)
  }

  /** Range checks and parsing of columns that already have one entry per offset. */
  function Build(locs: seq<Location>, ds: seq<real>, tcs: seq<real>): (r: Result<seq<Offset>, LatLonError>)
    requires |locs| == |ds| == |tcs|
    ensures r.Success? <==> |locs| >= 1 && forall i :: 0 <= i < |locs| ==> Admissible(locs[i], ds[i], tcs[i])
    ensures r.Success? ==> |r.value| == |locs| && forall i :: 0 <= i < |locs| ==> r.value[i] == Offset(locs[i], ds[i], tcs[i])
  {
    match RangeCheck(ds, tcs)
    case Some(e) => Failure(e)
    case None =>
      match ParseCheck(locs)
      case Some(e) => Failure(e)
      case None => Success(seq(|locs|, i requires 0 <= i < |locs| => Offset(locs[i], ds[i], tcs[i])))
  }

  /**
   * get_lat_lon as intended: the offset requests it computes destinations for.
   * Every error of the source is kept; a scalar `loc` with scalar `d` and `tc`
   * is wrapped into one request, and a scalar `d` with array-like `tc` is
   * rejected like the symmetric case.
   */
  function GetLatLon(loc: Arg<Location>, d: Arg<real>, tc: Arg<real>): (r: Result<seq<Offset>, LatLonError>)
    ensures r.Success? <==>
      && ShapesAgree(loc, d, tc)
      && Width(d) >= 1
      && forall i :: 0 <= i < Width(d) ==> Admissible(ValueAt(loc, i), ValueAt(d, i), ValueAt(tc, i))
    ensures r.Success? ==>
      && |r.value| == Width(d)
      && forall i :: 0 <= i < |r.value| ==> r.value[i] == Offset(ValueAt(loc, i), ValueAt(d, i), ValueAt(tc, i))
  {
    match ShapeCheck(loc, d, tc)
    case Some(e) => Failure(e)
    case None =>
      if d.Scalar? && tc.Many? then Failure(DistanceScalarDirectionArray)
      else
        assert ShapesAgree(loc, d, tc);
        var locs := Broadcast(loc, Width(d));
        assert forall i :: 0 <= i < Width(d) ==>
          locs[i] == ValueAt(loc, i) && Values(d)[i] == ValueAt(d, i) && Values(tc)[i] == ValueAt(tc, i);
        Build(locs, Values(d), Values(tc))
  }

  /**
   * get_lat_lon as written (street_view.py:97-141). When `d` is a scalar,
   * line 116 is skipped, so a scalar `loc` stays a str and line 131 splits
   * each of its characters as if it were a location; that never parses.
   */
  function GetLatLonAsWritten(loc: Arg<Location>, d: Arg<real>, tc: Arg<real>): (r: Result<seq<Offset>, LatLonError>)
    ensures r.Success? ==> d.Many?
    ensures d.Many? ==> r == GetLatLon(loc, d, tc)
  {
    match ShapeCheck(loc, d, tc)
    case Some(e) => Failure(e)
    case None =>
      if d.Many? then Build(Broadcast(loc, |d.items|), d.items, tc.items)
      else
        var chars := seq(|loc.value|, i requires 0 <= i < |loc.value| => [loc.value[i]]);
        match RangeCheck([d.value], Values(tc))
        case Some(e) => Failure(e)
        case None =>
          match ParseCheck(chars)
          case Some(e) => Failure(e)
          case None => assert !IsLatLonPair(chars[0]); Failure(MalformedLocation)
  }

  /** The discrepancy: an all-scalar call that the intended function answers is rejected as written. */
  lemma ScalarCallRejected(loc: Location, d: real, tc: real)
    requires Admissible(loc, d, tc)
    ensures GetLatLon(Scalar(loc), Scalar(d), Scalar(tc)) == Success([Offset(loc, d, tc)])
    ensures GetLatLonAsWritten(Scalar(loc), Scalar(d), Scalar(tc)) == Failure(MalformedLocation)
  {
    var r := GetLatLon(Scalar(loc), Scalar(d), Scalar(tc));
    assert r.Success?;
    assert r.value == [Offset(loc, d, tc)];
  }

  // ---------------------------------------------------------------------
  // is_gsv_available: the short-circuit scan
  // ---------------------------------------------------------------------

  /**
   * Entry i is whether the i-th status is "OK", until `remaining` more "OK"
   * answers have been seen; every later entry stays False.
   */
  function Availability(statuses: seq<string>, remaining: int): (r: seq<bool>)
    ensures |r| == |statuses|
    ensures forall i :: 0 <= i < |r| && r[i] ==> statuses[i] == "OK"
  {
    if statuses == [] then []
    else
      var hit := statuses[0] == "OK";
      var left := if hit then remaining - 1 else remaining;
      if left == 0 then [hit] + seq(|statuses| - 1, _ => false)
      else [hit] + Availability(statuses[1..], left)
  }

  function CountTrue(s: seq<bool>): nat
  {
    if s == [] then 0 else (if s[0] then 1 else 0) + CountTrue(s[1..])
  }

  function CountOk(statuses: seq<string>): nat
  {
    if statuses == [] then 0 else (if statuses[0] == "OK" then 1 else 0) + CountOk(statuses[1..])
  }

  /** `limit=None` means every location is probed. */
  function LimitOrAll(limit: Option<int>, n: nat): int
  {
    if limit.None? then n else limit.value
  }

  /** One step of the scan, unfolded at position i. */
  lemma AvailabilityUnfold(statuses: seq<string>, i: nat, remaining: int)
    requires i < |statuses|
    ensures
      var hit := statuses[i] == "OK";
      var left := if hit then remaining - 1 else remaining;
      Availability(statuses[i..], remaining) ==
        [hit] + (if left == 0 then seq(|statuses| - i - 1, _ => false) else Availability(statuses[i + 1..], left))
  {
    assert statuses[i..][1..] == statuses[i + 1..];
  }

  /** What the scan has established after probing the first i locations with `count` hits. */
  ghost predicate ScanInvariant(statuses: seq<string>, lim: int, availability: seq<bool>, i: nat, count: int)
  {
    && i <= |statuses| == |availability|
    && (forall j :: i <= j < |statuses| ==> !availability[j])
    && Availability(statuses, lim) == availability[..i] + Availability(statuses[i..], lim - count)
  }

  /** Probing location i without reaching the limit keeps the invariant. */
  lemma ScanContinue(statuses: seq<string>, lim: int, availability: seq<bool>, i: nat, count: int)
    requires i < |statuses| && ScanInvariant(statuses, lim, availability, i, count)
    requires (if statuses[i] == "OK" then count + 1 else count) != lim
    ensures ScanInvariant(statuses, lim, availability[i := statuses[i] == "OK"], i + 1,
                          if statuses[i] == "OK" then count + 1 else count)
  {
    var hit := statuses[i] == "OK";
    var next := availability[i := hit];
    var count' := if hit then count + 1 else count;
    var rest := Availability(statuses[i + 1..], lim - count');
    AvailabilityUnfold(statuses, i, lim - count);
    assert Availability(statuses[i..], lim - count) == [hit] + rest;
    PrefixExtend(availability, i, hit, rest);
    assert Availability(statuses, lim) == next[..i + 1] + rest;
    assert forall j :: i + 1 <= j < |statuses| ==> !next[j];
  }

  lemma PrefixExtend(a: seq<bool>, i: nat, hit: bool, rest: seq<bool>)
    requires i < |a|
    ensures a[..i] + ([hit] + rest) == a[i := hit][..i + 1] + rest
  {
    assert a[i := hit][..i + 1] == a[..i] + [hit];
  }

  /** Probing location i and reaching the limit completes the answer: the rest stays False. */
  lemma ScanFinish(statuses: seq<string>, lim: int, availability: seq<bool>, i: nat, count: int)
    requires i < |statuses| && ScanInvariant(statuses, lim, availability, i, count)
    requires (if statuses[i] == "OK" then count + 1 else count) == lim
    ensures availability[i := statuses[i] == "OK"] == Availability(statuses, lim)
  {
    var hit := statuses[i] == "OK";
    var next := availability[i := hit];
    var falses := seq(|statuses| - i - 1, _ => false);
    AvailabilityUnfold(statuses, i, lim - count);
    assert Availability(statuses[i..], lim - count) == [hit] + falses;
    assert next == availability[..i] + [hit] + falses;
  }

  /** is_gsv_available over the statuses the metadata endpoint answers, one per location. */
  method IsGsvAvailable(statuses: seq<string>, limit: Option<int>) returns (availability: seq<bool>)
    ensures availability == Availability(statuses, LimitOrAll(limit, |statuses|))
  {
    var lim := LimitOrAll(limit, |statuses|);
    availability := seq(|statuses|, _ => false);
    var count := 0;
    for i := 0 to |statuses|
      invariant ScanInvariant(statuses, lim, availability, i, count)
    {
      if (if statuses[i] == "OK" then count + 1 else count) == lim {
        ScanFinish(statuses, lim, availability, i, count);
      } else {
        ScanContinue(statuses, lim, availability, i, count);
      }
      availability := availability[i := statuses[i] == "OK"];
      if availability[i] {
        count := count + 1;
      }
      if count == lim {
        return;
      }
    }
    assert availability[..|statuses|] == availability;
  }

  /** With no limit (or a limit at least the number of locations) every location is probed. */
  lemma {:induction false} AvailabilityUnlimited(statuses: seq<string>, remaining: int)
    requires remaining >= |statuses|
    ensures Availability(statuses, remaining) == seq(|statuses|, i requires 0 <= i < |statuses| => statuses[i] == "OK")
  {
    if statuses != [] {
      var hit := statuses[0] == "OK";
      var left := if hit then remaining - 1 else remaining;
      if left != 0 {
        AvailabilityUnlimited(statuses[1..], left);
      }
    }
  }

  /**
   * The scan's exact meaning for a positive limit: an entry is True iff its
   * status is "OK" and fewer than `limit` True entries precede it. Once the
   * count reaches the limit, every later entry is False.
   */
  lemma {:induction false} AvailabilityStopsAtLimit(statuses: seq<string>, limit: int, i: nat)
    requires limit >= 1 && i < |statuses|
    ensures Availability(statuses, limit)[i] ==
            (statuses[i] == "OK" && CountTrue(Availability(statuses, limit)[..i]) < limit)
  {
    var r := Availability(statuses, limit);
    var hit := statuses[0] == "OK";
    var left := if hit then limit - 1 else limit;
    if i == 0 {
      assert r[..0] == [];
    } else {
      assert r[..i][1..] == r[1..][..i - 1];
      if left == 0 {
        var rest := r[1..][..i - 1];
        assert forall j :: 0 <= j < |rest| ==> !rest[j];
        AllFalseCount(rest);
      } else {
        AvailabilityStopsAtLimit(statuses[1..], left, i - 1);
      }
    }
  }

  lemma {:induction false} AllFalseCount(s: seq<bool>)
    requires forall j :: 0 <= j < |s| ==> !s[j]
    ensures CountTrue(s) == 0
  {
    if s != [] {
      AllFalseCount(s[1..]);
    }
  }

  /** For a positive limit the scan reports min(number of "OK" statuses, limit) available locations. */
  lemma {:induction false} AvailabilityCount(statuses: seq<string>, limit: int)
    requires limit >= 1
    ensures CountTrue(Availability(statuses, limit)) == if CountOk(statuses) < limit then CountOk(statuses) else limit
  {
    if statuses != [] {
      var r := Availability(statuses, limit);
      var hit := statuses[0] == "OK";
      var left := if hit then limit - 1 else limit;
      assert r[1..] == Availability(statuses, limit)[1..];
      if left == 0 {
        AllFalseCount(r[1..]);
      } else {
        AvailabilityCount(statuses[1..], left);
      }
    }
  }

  // ---------------------------------------------------------------------
  // The sampling loop of collect_gsv_images_for_each_id
  // ---------------------------------------------------------------------

  /**
   * What the random draws and the metadata endpoint answer in one round:
   * the candidate distances and directions, and one status per candidate.
   */
  datatype Trial = Trial(distances: seq<real>, directions: seq<real>, statuses: seq<string>)

  /** int(n_images * 1.5): the number of candidates drawn per round. */
  function CandidateCount(nImages: nat): (c: nat)
    ensures c >= nImages && (nImages >= 1 <==> c >= 1)
  {
    (3 * nImages) / 2
  }

  /** The draws of one round have one entry per candidate. */
  predicate WellShaped(nImages: nat, t: Trial)
  {
    |t.distances| == |t.directions| == |t.statuses| == CandidateCount(nImages)
  }

  predicate AllWellShaped(nImages: nat, trials: seq<Trial>)
  {
    forall k :: 0 <= k < |trials| ==> WellShaped(nImages, trials[k])
  }

  /** `s[mask]` for a boolean mask: the entries whose flag is set, in order. */
  function Keep<T>(s: seq<T>, mask: seq<bool>): (r: seq<T>)
    requires |s| == |mask|
    ensures |r| == CountTrue(mask)
    ensures forall x :: x in r ==> exists i :: 0 <= i < |s| && mask[i] && s[i] == x
  {
    if s == [] then []
    else
      var rest := Keep(s[1..], mask[1..]);
      assert forall x :: x in rest ==> exists i :: 0 <= i < |s| && mask[i] && s[i] == x by {
        forall x | x in rest ensures exists i :: 0 <= i < |s| && mask[i] && s[i] == x {
          var i :| 0 <= i < |s[1..]| && mask[1..][i] && s[1..][i] == x;
          assert mask[i + 1] && s[i + 1] == x;
        }
      }
      if mask[0] then [s[0]] + rest else rest
  }

  /**
   * `s[mask]` keeps every flagged entry, in order: flagged entry i sits at
   * the position given by the number of flags before it. With the length
   * being the number of flags, nothing else is kept.
   */
  lemma {:induction false} KeepAt<T>(s: seq<T>, mask: seq<bool>, i: nat)
    requires |s| == |mask| && i < |s| && mask[i]
    ensures CountTrue(mask[..i]) < |Keep(s, mask)|
    ensures Keep(s, mask)[CountTrue(mask[..i])] == s[i]
    decreases |s|
  {
    if i > 0 {
      KeepAt(s[1..], mask[1..], i - 1);
      assert mask[..i][1..] == mask[1..][..i - 1];
      assert s[1..][i - 1] == s[i];
    }
  }

  /**
   * One round: the candidate locations around `anchor` (through get_lat_lon
   * and the destination formula), filtered by is_gsv_available with limit
   * n_images. A location kept is the destination of a candidate whose
   * status was "OK", and at most n_images are kept.
   */
  function RoundHits(anchor: Location, destination: Offset -> Location, nImages: nat, t: Trial)
    : (r: Result<seq<Location>, LatLonError>)
    requires WellShaped(nImages, t)
    ensures r.Success? ==> nImages >= 1 && |r.value| <= nImages
    ensures r.Success? ==> forall x :: x in r.value ==>
      exists i :: 0 <= i < CandidateCount(nImages) && t.statuses[i] == "OK" &&
                  x == destination(Offset(anchor, t.distances[i], t.directions[i]))
  {
    match GetLatLonAsWritten(Scalar(anchor), Many(t.distances), Many(t.directions))
    case Failure(e) => Failure(e)
    case Success(offsets) =>
      var latLon := seq(|offsets|, i requires 0 <= i < |offsets| => destination(offsets[i]));
      var mask := Availability(t.statuses, nImages);
      AvailabilityCount(t.statuses, nImages);
      Success(Keep(latLon, mask))
  }

  /** Python's `s[:n]`: a negative n drops |n| entries from the end. */
  function PySliceTo<T>(s: seq<T>, n: int): (r: seq<T>)
    ensures r <= s
    ensures n >= 0 ==> |r| == if n < |s| then n else |s|
    ensures n < 0 ==> |s| - |r| == if -n < |s| then -n else |s|
  {
    if n >= 0 then s[..if n < |s| then n else |s|]
    else s[..if |s| + n > 0 then |s| + n else 0]
  }

  /** trial_count after k failed rounds: it grows by n_images * 1.5 per round. */
  function TrialCount(nImages: nat, k: nat): real
  {
    k as real * (nImages as real * 1.5)
  }

  /** `n_images * limit < trial_count` after k failed rounds. */
  predicate BudgetSpent(nImages: nat, limit: int, k: nat)
  {
    (nImages * limit) as real < TrialCount(nImages, k)
  }

  /** An upper bound on the number of rounds: floor(2 * limit / 3) + 2, or 1 for a negative limit. */
  function MaxRounds(limit: int): (m: nat)
    ensures m >= 1
  {
    if limit < 0 then 1 else (2 * limit) / 3 + 2
  }

  /** A round after which the budget is not yet spent is never the last round that the bound allows. */
  lemma BudgetBound(nImages: nat, limit: int, k: nat)
    requires nImages >= 1 && !BudgetSpent(nImages, limit, k)
    ensures k + 1 < MaxRounds(limit)
  {
    var n := nImages as real;
    assert n * (limit as real) >= n * (k as real * 1.5);
    assert limit as real >= k as real * 1.5;
    assert 2 * limit >= 3 * k;
  }

  lemma TrialCountStep(k: nat, nImages: nat)
    ensures TrialCount(nImages, k + 1) == TrialCount(nImages, k) + nImages as real * 1.5
  {
  }

  /** The sampler's answer: the locations it settled on, the rounds it took, and whether it found enough. */
  datatype Sample = Sample(locations: seq<Location>, rounds: nat, complete: bool)

  /** What each round yields, given the draws and answers of every round. */
  function RoundResults(anchor: Location, destination: Offset -> Location, nImages: nat, trials: seq<Trial>)
    : (rs: seq<Result<seq<Location>, LatLonError>>)
    requires AllWellShaped(nImages, trials)
    ensures |rs| == |trials|
  {
    if trials == [] then []
    else [RoundHits(anchor, destination, nImages, trials[0])] + RoundResults(anchor, destination, nImages, trials[1..])
  }

  lemma {:induction false} RoundResultAt(anchor: Location, destination: Offset -> Location, nImages: nat, trials: seq<Trial>, k: nat)
    requires AllWellShaped(nImages, trials) && k < |trials|
    ensures RoundResults(anchor, destination, nImages, trials)[k] == RoundHits(anchor, destination, nImages, trials[k])
  {
    if k > 0 {
      RoundResultAt(anchor, destination, nImages, trials[1..], k - 1);
    }
  }

  /** What every round result satisfies (see RoundHits): a round only succeeds for n_images >= 1, with at most n_images hits. */
  predicate RoundsBounded(nImages: nat, rounds: seq<Result<seq<Location>, LatLonError>>)
  {
    forall k :: 0 <= k < |rounds| && rounds[k].Success? ==> nImages >= 1 && |rounds[k].value| <= nImages
  }

  lemma RoundResultsBounded(anchor: Location, destination: Offset -> Location, nImages: nat, trials: seq<Trial>)
    requires AllWellShaped(nImages, trials)
    ensures RoundsBounded(nImages, RoundResults(anchor, destination, nImages, trials))
  {
    forall k | 0 <= k < |trials| {
      RoundResultAt(anchor, destination, nImages, trials, k);
    }
  }

  /**
   * The sampling loop from round k on, as written: each round's hits
   * replace the previous ones (the `except NameError` branch runs every
   * round), the loop stops with the first n_needed hits of a round that has
   * enough, or with that round's hits once the budget is spent.
   */
  function SampleFrom(nImages: nat, nNeeded: int, limit: int, rounds: seq<Result<seq<Location>, LatLonError>>, k: nat)
    : (r: Result<Sample, LatLonError>)
    requires RoundsBounded(nImages, rounds) && MaxRounds(limit) <= |rounds| && k < MaxRounds(limit)
    ensures r.Success? ==> k < r.value.rounds <= MaxRounds(limit) && |r.value.locations| <= nImages
    ensures r.Success? && r.value.complete ==> nNeeded >= 0 ==> |r.value.locations| == nNeeded
    ensures r.Success? && !r.value.complete ==> |r.value.locations| < nNeeded && BudgetSpent(nImages, limit, r.value.rounds - 1)
    decreases MaxRounds(limit) - k
  {
    match rounds[k]
    case Failure(e) => Failure(e)
    case Success(hits) =>
      if |hits| >= nNeeded then Success(Sample(PySliceTo(hits, nNeeded), k + 1, true))
      else if BudgetSpent(nImages, limit, k) then Success(Sample(hits, k + 1, false))
      else
        BudgetBound(nImages, limit, k);
        SampleFrom(nImages, nNeeded, limit, rounds, k + 1)
  }

  /** One round of SampleFrom, unfolded at round k. */
  lemma SampleFromAt(nImages: nat, nNeeded: int, limit: int, rounds: seq<Result<seq<Location>, LatLonError>>, k: nat)
    requires RoundsBounded(nImages, rounds) && MaxRounds(limit) <= |rounds| && k < MaxRounds(limit)
    ensures rounds[k].Failure? ==> SampleFrom(nImages, nNeeded, limit, rounds, k) == Failure(rounds[k].error)
    ensures rounds[k].Success? && |rounds[k].value| >= nNeeded ==>
      SampleFrom(nImages, nNeeded, limit, rounds, k) == Success(Sample(PySliceTo(rounds[k].value, nNeeded), k + 1, true))
    ensures rounds[k].Success? && |rounds[k].value| < nNeeded && BudgetSpent(nImages, limit, k) ==>
      SampleFrom(nImages, nNeeded, limit, rounds, k) == Success(Sample(rounds[k].value, k + 1, false))
    ensures rounds[k].Success? && |rounds[k].value| < nNeeded && !BudgetSpent(nImages, limit, k) ==>
      k + 1 < MaxRounds(limit) && SampleFrom(nImages, nNeeded, limit, rounds, k) == SampleFrom(nImages, nNeeded, limit, rounds, k + 1)
  {
    if rounds[k].Success? && !BudgetSpent(nImages, limit, k) {
      BudgetBound(nImages, limit, k);
    }
  }

  /**
   * One round of the sampling loop (street_view.py:339-350): the candidates
   * through get_lat_lon and the destination formula, then the hits of
   * is_gsv_available with limit n_images, renumbered.
   */
  method SampleRound(anchor: Location, destination: Offset -> Location, nImages: nat, t: Trial)
    returns (r: Result<seq<Location>, LatLonError>)
    requires WellShaped(nImages, t)
    ensures r == RoundHits(anchor, destination, nImages, t)
  {
    var latLon := GetLatLonAsWritten(Scalar(anchor), Many(t.distances), Many(t.directions));
    if latLon.Failure? {
      return Failure(latLon.error);
    }
    var candidates := seq(|latLon.value|, i requires 0 <= i < |latLon.value| => destination(latLon.value[i]));
    var available := IsGsvAvailable(t.statuses, Some(nImages));
    r := Success(Keep(candidates, available));
  }

  /**
   * The `while True` loop of collect_gsv_images_for_each_id (street_view.py:336-370).
   * `trials[k]` holds the draws and the metadata answers of round k.
   */
  method SampleValidLocations(anchor: Location, destination: Offset -> Location, nImages: nat, nNeeded: int,
                              limit: int, trials: seq<Trial>) returns (r: Result<Sample, LatLonError>)
    requires AllWellShaped(nImages, trials) && MaxRounds(limit) <= |trials|
    ensures RoundsBounded(nImages, RoundResults(anchor, destination, nImages, trials))
    ensures r == SampleFrom(nImages, nNeeded, limit, RoundResults(anchor, destination, nImages, trials), 0)
  {
    ghost var rounds := RoundResults(anchor, destination, nImages, trials);
    RoundResultsBounded(anchor, destination, nImages, trials);
    var trialCount: real := 0.0;
    var k: nat := 0;
    ghost var sample := SampleFrom(nImages, nNeeded, limit, rounds, 0);
    while true
      invariant k < MaxRounds(limit)
      invariant trialCount == TrialCount(nImages, k)
      invariant sample == SampleFrom(nImages, nNeeded, limit, rounds, k)
      decreases MaxRounds(limit) - k
    {
      RoundResultAt(anchor, destination, nImages, trials, k);
      SampleFromAt(nImages, nNeeded, limit, rounds, k);
      var hits := SampleRound(anchor, destination, nImages, trials[k]);
      if hits.Failure? {
        return Failure(hits.error);
      }
      var locValid := hits.value;
      if |locValid| >= nNeeded {
        locValid := PySliceTo(locValid, nNeeded);
        return Success(Sample(locValid, k + 1, true));
      } else if (nImages * limit) as real < trialCount {
        return Success(Sample(locValid, k + 1, false));
      } else {
        BudgetBound(nImages, limit, k);
        TrialCountStep(k, nImages);
        trialCount := trialCount + nImages as real * 1.5;
        k := k + 1;
      }
    }
  }

  /**
   * Hits are not accumulated across rounds: the sampled locations come from
   * the last round alone, cut to n_needed when that round had enough.
   */
  lemma {:induction false} OnlyLastRoundCounts(nImages: nat, nNeeded: int, limit: int,
                                               rounds: seq<Result<seq<Location>, LatLonError>>, k: nat, s: Sample)
    requires RoundsBounded(nImages, rounds) && MaxRounds(limit) <= |rounds| && k < MaxRounds(limit)
    requires SampleFrom(nImages, nNeeded, limit, rounds, k) == Success(s)
    ensures k < s.rounds <= |rounds|
    ensures
      var last := rounds[s.rounds - 1];
      && last.Success?
      && s.complete == (|last.value| >= nNeeded)
      && s.locations == (if s.complete then PySliceTo(last.value, nNeeded) else last.value)
    decreases MaxRounds(limit) - k
  {
    assert rounds[k].Success?;
    var hits := rounds[k].value;
    if |hits| < nNeeded && !BudgetSpent(nImages, limit, k) {
      BudgetBound(nImages, limit, k);
      OnlyLastRoundCounts(nImages, nNeeded, limit, rounds, k + 1, s);
    }
  }

  /**
   * With more png files than n_images already present, n_needed is
   * negative: the first round always ends the loop, and the slice keeps all
   * but the last |n_needed| hits, so images are still fetched.
   */
  lemma OverfullStillFetches(nImages: nat, nNeeded: int, limit: int, rounds: seq<Result<seq<Location>, LatLonError>>)
    requires RoundsBounded(nImages, rounds) && MaxRounds(limit) <= |rounds| && nNeeded < 0
    requires SampleFrom(nImages, nNeeded, limit, rounds, 0).Success?
    ensures
      var s := SampleFrom(nImages, nNeeded, limit, rounds, 0).value;
      var hits := rounds[0].value;
      && s.rounds == 1 && s.complete
      && |s.locations| == (if |hits| + nNeeded > 0 then |hits| + nNeeded else 0)
  {
  }

  // ---------------------------------------------------------------------
  // The heading parameter of the image requests
  // ---------------------------------------------------------------------

  /** The camera_direction argument: an int (-1, -2 or degrees) or a str. */
  datatype CameraDirection = CameraInt(degrees: int) | CameraText(text: string)

  /** The heading of one image request: no "&heading=" at all, or its value. */
  datatype Heading = NoHeading | Degrees(text: string)

  /** Adding an int Series to a str raises TypeError. */
  datatype HeadingError = HeadingTypeError

  /**
   * The headings of the image requests for `n` sampled locations, as
   * intended by the documentation of camera_direction: -2 sends none, -1
   * sends the i-th random draw (its text is `draws[i]`), and any other
   * value sends the same heading with every request.
   */
  function Headings(camera: CameraDirection, draws: seq<string>, show: int -> string, n: nat): (r: seq<Heading>)
    requires |draws| == n
    ensures |r| == n
    ensures camera == CameraInt(-2) ==> forall k :: 0 <= k < n ==> r[k] == NoHeading
    ensures camera == CameraInt(-1) ==> forall k :: 0 <= k < n ==> r[k] == Degrees(draws[k])
    ensures camera.CameraInt? && camera.degrees != -1 && camera.degrees != -2 ==>
      forall k :: 0 <= k < n ==> r[k] == Degrees(show(camera.degrees))
    ensures camera.CameraText? ==> forall k :: 0 <= k < n ==> r[k] == Degrees(camera.text)
  {
    var h := match camera
      case CameraInt(-2) => NoHeading
      case CameraInt(-1) => NoHeading
      case CameraInt(d) => Degrees(show(d))
      case CameraText(t) => Degrees(t);
    if camera == CameraInt(-1) then seq(n, k requires 0 <= k < n => Degrees(draws[k]))
    else seq(n, k => h)
  }

  /**
   * The headings as street_view.py:380-387 builds them, one per URL of the
   * resulting Series (None for a NaN URL). For any other value the
   * one-element Series `pd.Series(camera_direction)` is added to a str: an
   * int raises TypeError, and a str is aligned with location 0 only, so
   * every other URL is NaN (and with no location there is still one NaN URL).
   */
  function HeadingsAsWritten(camera: CameraDirection, draws: seq<string>, n: nat): (r: Result<seq<Option<Heading>>, HeadingError>)
    requires |draws| == n
  {
    match camera
    case CameraInt(-2) => Success(seq(n, k => Some(NoHeading)))
    case CameraInt(-1) => Success(seq(n, k requires 0 <= k < n => Some(Degrees(draws[k]))))
    case CameraInt(_) => Failure(HeadingTypeError)
    case CameraText(t) => Success([if n == 0 then None else Some(Degrees(t))] + seq(if n == 0 then 0 else n - 1, k => None))
  }

  /** For -1 and -2 the program sends the intended headings, one request per location. */
  lemma DefaultHeadingsAgree(camera: CameraDirection, draws: seq<string>, show: int -> string, n: nat)
    requires |draws| == n && (camera == CameraInt(-1) || camera == CameraInt(-2))
    ensures HeadingsAsWritten(camera, draws, n).Success?
    ensures var r := HeadingsAsWritten(camera, draws, n).value;
      |r| == n && forall k :: 0 <= k < n ==> r[k] == Some(Headings(camera, draws, show, n)[k])
  {
  }

  /**
   * The discrepancy: a heading in degrees, the documented use, fails for
   * every number of locations, where one request per location with that
   * heading is intended.
   */
  lemma DegreesHeadingFails(degrees: int, draws: seq<string>, show: int -> string, n: nat)
    requires |draws| == n && degrees != -1 && degrees != -2
    ensures HeadingsAsWritten(CameraInt(degrees), draws, n) == Failure(HeadingTypeError)
    ensures Headings(CameraInt(degrees), draws, show, n) == seq(n, k => Degrees(show(degrees)))
  {
  }

  /** A str heading reaches the first request only: from the second location on, the URL is NaN. */
  lemma TextHeadingReachesFirstOnly(t: string, draws: seq<string>, show: int -> string, n: nat)
    requires |draws| == n
    ensures var r := HeadingsAsWritten(CameraText(t), draws, n).value;
      |r| == (if n == 0 then 1 else n)
      && (n > 0 ==> r[0] == Some(Degrees(t)))
      && forall k :: 0 <= k < |r| ==> (r[k].Some? <==> k == 0 && n > 0)
  {
  }

  // ---------------------------------------------------------------------
  // An ID's sub-directory: resume count, file naming, the loc.csv journal
  // ---------------------------------------------------------------------

  /**
   * A file of an ID's sub-directory: `Image(j)` is "image{j}.png",
   * `LocJournal` is "loc.csv", `Other` is any other name. A folder lists
   * "image{j}.png" only as `Image(j)` and "loc.csv" only as `LocJournal`;
   * an `Other` entry spelling one of those names stands for no real folder.
   */
  datatype Entry = Image(index: nat) | LocJournal | Other(name: string)

  /** What a file holds: png bytes, or csv lines (the header, or a row naming an image and its location). */
  datatype Chunk = Bytes(data: seq<bv8>) | Header(columns: seq<string>) | LocRow(image: nat, location: Location)

  type Folder = map<Entry, seq<Chunk>>

  /** The image bytes the Street View Static API answers for (ID, request number, location). */
  type Download = (string, nat, Location) -> seq<bv8>

  /** The csv header of a newly created loc.csv. */
  const LocHeader: Chunk := Header(["name", "location"])

  /** Whether a file name matches the pattern "*.png". */
  predicate IsPng(e: Entry)
  {
    e.Image? || (e.Other? && |e.name| >= 4 && e.name[|e.name| - 4..] == ".png")
  }

  function PngFiles(f: Folder): set<Entry>
  {
    set e | e in f.Keys && IsPng(e)
  }

  /** n_existing_images: the number of "*.png" files in the sub-directory. */
  function PngCount(f: Folder): nat
  {
    |PngFiles(f)|
  }

  /** The image files with index j or more. */
  function UsedFrom(f: Folder, j: nat): set<Entry>
  {
    set e | e in f.Keys && e.Image? && e.index >= j
  }

  /** The smallest index j' >= j whose "image{j'}.png" does not exist. */
  function FirstUnusedFrom(f: Folder, j: nat): (r: nat)
    ensures j <= r && Image(r) !in f
    ensures forall i :: j <= i < r ==> Image(i) in f
    decreases |UsedFrom(f, j)|
  {
    if Image(j) !in f then j
    else
      assert UsedFrom(f, j + 1) == UsedFrom(f, j) - {Image(j)};
      FirstUnusedFrom(f, j + 1)
  }

  /**
   * Saving the images for locations k.. with the naming search resumed at
   * j: the final folder and the index of each new file, one per location.
   */
  function Save(f: Folder, id: string, locs: seq<Location>, download: Download, k: nat, j: nat)
    : (r: (Folder, seq<nat>))
    requires k <= |locs|
    ensures |r.1| == |locs| - k
    decreases |locs| - k
  {
    if k == |locs| then (f, [])
    else
      var slot := FirstUnusedFrom(f, j);
      var next := Save(f[Image(slot) := [Bytes(download(id, k, locs[k]))]], id, locs, download, k + 1, slot);
      (next.0, [slot] + next.1)
  }

  /** Every new file gets a name that did not exist, the names increase, and no existing file changes. */
  lemma {:induction false} SaveFresh(f: Folder, id: string, locs: seq<Location>, download: Download, k: nat, j: nat)
    requires k <= |locs|
    ensures var r := Save(f, id, locs, download, k, j);
      && (forall i :: 0 <= i < |r.1| ==> j <= r.1[i] && Image(r.1[i]) !in f)
      && (forall i, i' :: 0 <= i < i' < |r.1| ==> r.1[i] < r.1[i'])
      && (forall e :: e in f ==> e in r.0 && r.0[e] == f[e])
    decreases |locs| - k
  {
    if k < |locs| {
      var slot := FirstUnusedFrom(f, j);
      var h := f[Image(slot) := [Bytes(download(id, k, locs[k]))]];
      SaveFresh(h, id, locs, download, k + 1, slot);
      var next := Save(h, id, locs, download, k + 1, slot);
      var r := Save(f, id, locs, download, k, j);
      assert r == (next.0, [slot] + next.1);
      forall i | 0 <= i < |r.1| ensures j <= r.1[i] && Image(r.1[i]) !in f {
        if i > 0 {
          assert r.1[i] == next.1[i - 1];
          assert Image(r.1[i]) !in h;
        }
      }
      forall i, i' | 0 <= i < i' < |r.1| ensures r.1[i] < r.1[i'] {
        assert r.1[i'] == next.1[i' - 1];
        if i > 0 {
          assert r.1[i] == next.1[i - 1];
        } else {
          assert slot <= next.1[i' - 1] && Image(next.1[i' - 1]) !in h;
        }
      }
    }
  }

  /** The i-th file Save adds holds the bytes of its own request. */
  lemma {:induction false} SaveBytes(f: Folder, id: string, locs: seq<Location>, download: Download, k: nat, j: nat, i: nat)
    requires k + i < |locs|
    ensures
      var r := Save(f, id, locs, download, k, j);
      Image(r.1[i]) in r.0 && r.0[Image(r.1[i])] == [Bytes(download(id, k + i, locs[k + i]))]
    decreases i
  {
    var slot := FirstUnusedFrom(f, j);
    var h := f[Image(slot) := [Bytes(download(id, k, locs[k]))]];
    var next := Save(h, id, locs, download, k + 1, slot);
    var r := Save(f, id, locs, download, k, j);
    assert r == (next.0, [slot] + next.1);
    if i == 0 {
      SaveFresh(h, id, locs, download, k + 1, slot);
      assert Image(slot) in h;
    } else {
      SaveBytes(h, id, locs, download, k + 1, slot, i - 1);
      assert r.1[i] == next.1[i - 1];
      assert k + 1 + (i - 1) == k + i;
    }
  }

  /** Save adds no file besides the named images. */
  lemma {:induction false} SaveOnlyNew(f: Folder, id: string, locs: seq<Location>, download: Download, k: nat, j: nat)
    requires k <= |locs|
    ensures
      var r := Save(f, id, locs, download, k, j);
      forall e :: e in r.0 ==> e in f || exists i :: 0 <= i < |r.1| && e == Image(r.1[i])
    decreases |locs| - k
  {
    if k < |locs| {
      var slot := FirstUnusedFrom(f, j);
      var h := f[Image(slot) := [Bytes(download(id, k, locs[k]))]];
      SaveOnlyNew(h, id, locs, download, k + 1, slot);
      var next := Save(h, id, locs, download, k + 1, slot);
      var r := Save(f, id, locs, download, k, j);
      assert r == (next.0, [slot] + next.1);
      forall e | e in r.0 && e !in f ensures exists i :: 0 <= i < |r.1| && e == Image(r.1[i]) {
        if e == Image(slot) {
          assert e == Image(r.1[0]);
        } else {
          var i :| 0 <= i < |next.1| && e == Image(next.1[i]);
          assert e == Image(r.1[i + 1]);
        }
      }
    }
  }

  /** Each saved image adds one "*.png" file. */
  lemma {:induction false} SavePngCount(f: Folder, id: string, locs: seq<Location>, download: Download, k: nat, j: nat)
    requires k <= |locs|
    ensures PngCount(Save(f, id, locs, download, k, j).0) == PngCount(f) + (|locs| - k)
    decreases |locs| - k
  {
    if k < |locs| {
      var slot := FirstUnusedFrom(f, j);
      var g := f[Image(slot) := [Bytes(download(id, k, locs[k]))]];
      assert PngFiles(g) == PngFiles(f) + {Image(slot)};
      assert Image(slot) !in PngFiles(f);
      SavePngCount(g, id, locs, download, k + 1, slot);
    }
  }

  /** The loc.csv rows of the new files: one per file, naming it and its location. */
  function Rows(names: seq<nat>, locs: seq<Location>): seq<Chunk>
    requires |names| == |locs|
  {
    seq(|names|, i requires 0 <= i < |names| => LocRow(names[i], locs[i]))
  }

  /** loc.csv after the job: appended to without a header if it existed, created with a header otherwise. */
  function Journal(prior: Option<seq<Chunk>>, names: seq<nat>, locs: seq<Location>): seq<Chunk>
    requires |names| == |locs|
  {
    (if prior.Some? then prior.value else [LocHeader]) + Rows(names, locs)
  }

  /** How the job for one ID ended. */
  datatype TaskOutcome =
    | AlreadyComplete
    | Fetched(names: seq<nat>, locations: seq<Location>, complete: bool)

  /**
   * Saving the sampled locations' images into a sub-directory and recording
   * them in loc.csv: the outcome and the sub-directory afterwards.
   */
  function Store(f: Folder, id: string, locs: seq<Location>, complete: bool, download: Download): (TaskOutcome, Folder)
  {
    var saved := Save(f, id, locs, download, 0, 0);
    var prior := if LocJournal in saved.0 then Some(saved.0[LocJournal]) else None;
    (Fetched(saved.1, locs, complete), saved.0[LocJournal := Journal(prior, saved.1, locs)])
  }

  /**
   * The loc.csv rule: loc.csv becomes its prior content (or, when it did not
   * exist, the header) followed by one row per new image, naming its file
   * and its location.
   */
  lemma StoreJournal(f: Folder, id: string, locs: seq<Location>, complete: bool, download: Download)
    ensures
      var (outcome, g) := Store(f, id, locs, complete, download);
      var names := outcome.names;
      && |names| == |locs|
      && LocJournal in g
      && g[LocJournal] == (if LocJournal in f then f[LocJournal] else [LocHeader]) +
                           seq(|names|, i requires 0 <= i < |names| => LocRow(names[i], locs[i]))
  {
    var saved := Save(f, id, locs, download, 0, 0);
    SaveOnlyNew(f, id, locs, download, 0, 0);
    SaveFresh(f, id, locs, download, 0, 0);
    assert LocJournal in saved.0 <==> LocJournal in f;
  }

  /**
   * File naming: the i-th new image lies under a name that did not exist
   * before and holds the bytes of the i-th request, and the names increase.
   */
  lemma StoreNaming(f: Folder, id: string, locs: seq<Location>, complete: bool, download: Download)
    ensures
      var r := Store(f, id, locs, complete, download);
      var names := r.0.names;
      && |names| == |locs|
      && (forall i :: 0 <= i < |names| ==>
            Image(names[i]) !in f && Image(names[i]) in r.1 && r.1[Image(names[i])] == [Bytes(download(id, i, locs[i]))])
      && (forall i, i' :: 0 <= i < i' < |names| ==> names[i] < names[i'])
  {
    var saved := Save(f, id, locs, download, 0, 0);
    SaveFresh(f, id, locs, download, 0, 0);
    forall i | 0 <= i < |saved.1|
      ensures Image(saved.1[i]) in saved.0 && saved.0[Image(saved.1[i])] == [Bytes(download(id, i, locs[i]))]
    {
      SaveBytes(f, id, locs, download, 0, 0, i);
    }
  }

  /** No existing file other than loc.csv is touched, and nothing but the new images and loc.csv is added. */
  lemma StoreKeepsOthers(f: Folder, id: string, locs: seq<Location>, complete: bool, download: Download)
    ensures
      var r := Store(f, id, locs, complete, download);
      && (forall e :: e in f && e != LocJournal ==> e in r.1 && r.1[e] == f[e])
      && (forall e :: e in r.1 ==> e in f || e == LocJournal || exists i :: 0 <= i < |r.0.names| && e == Image(r.0.names[i]))
  {
    SaveOnlyNew(f, id, locs, download, 0, 0);
    SaveFresh(f, id, locs, download, 0, 0);
  }

  /** Storing adds one "*.png" file per location. */
  lemma StorePngCount(f: Folder, id: string, locs: seq<Location>, complete: bool, download: Download)
    ensures PngCount(Store(f, id, locs, complete, download).1) == PngCount(f) + |locs|
  {
    var saved := Save(f, id, locs, download, 0, 0);
    SavePngCount(f, id, locs, download, 0, 0);
    assert PngFiles(Store(f, id, locs, complete, download).1) == PngFiles(saved.0);
  }

  /** The per-round results of the sampling loop, one per round. */
  type Rounds = seq<Result<seq<Location>, LatLonError>>

  /**
   * The job for one ID, given what each sampling round yields: its outcome
   * and every sub-directory afterwards.
   */
  function Collect(folders: map<string, Folder>, id: string, nImages: nat, limit: int, rounds: Rounds, download: Download)
    : (Result<TaskOutcome, LatLonError>, map<string, Folder>)
    requires RoundsBounded(nImages, rounds) && MaxRounds(limit) <= |rounds|
  {
    var present := if id in folders then folders else folders[id := map[]];
    var nExisting := if id in folders then PngCount(folders[id]) else 0;
    if id in folders && nExisting == nImages then (Success(AlreadyComplete), folders)
    else Fetch(present, id, nImages, nImages - nExisting, limit, rounds, download)
  }

  /**
   * The job for one ID once its sub-directory exists and is not complete:
   * sample nNeeded locations, then store them (nothing changes when the
   * sampler fails).
   */
  function Fetch(folders: map<string, Folder>, id: string, nImages: nat, nNeeded: int, limit: int, rounds: Rounds,
                 download: Download): (Result<TaskOutcome, LatLonError>, map<string, Folder>)
    requires id in folders && RoundsBounded(nImages, rounds) && MaxRounds(limit) <= |rounds|
  {
    match SampleFrom(nImages, nNeeded, limit, rounds, 0)
    case Failure(e) => (Failure(e), folders)
    case Success(s) =>
      var stored := Store(folders[id], id, s.locations, s.complete, download);
      (Success(stored.0), folders[id := stored.1])
  }

  /** A complete sub-directory ends the job; otherwise it goes on to Fetch, from the sub-directory made present. */
  lemma CollectFetches(folders: map<string, Folder>, id: string, nImages: nat, limit: int, rounds: Rounds, download: Download)
    requires RoundsBounded(nImages, rounds) && MaxRounds(limit) <= |rounds|
    ensures id in folders && PngCount(folders[id]) == nImages ==>
      Collect(folders, id, nImages, limit, rounds, download) == (Success(AlreadyComplete), folders)
    ensures !(id in folders && PngCount(folders[id]) == nImages) ==>
      Collect(folders, id, nImages, limit, rounds, download)
        == Fetch(if id in folders then folders else folders[id := map[]], id, nImages,
                 nImages - (if id in folders then PngCount(folders[id]) else 0), limit, rounds, download)
  {
  }

  /**
   * The resume rule: the job does nothing exactly when the sub-directory
   * exists and already holds n_images "*.png" files. Otherwise it creates
   * the sub-directory if needed, samples n_images minus the existing count,
   * and stores what it sampled; no other sub-directory changes.
   */
  lemma CollectResumes(folders: map<string, Folder>, id: string, nImages: nat, limit: int, rounds: Rounds, download: Download)
    requires RoundsBounded(nImages, rounds) && MaxRounds(limit) <= |rounds|
    ensures
      var (outcome, after) := Collect(folders, id, nImages, limit, rounds, download);
      var before := if id in folders then folders[id] else map[];
      var present := if id in folders then folders else folders[id := map[]];
      var nNeeded := nImages - (if id in folders then PngCount(before) else 0);
      var sample := SampleFrom(nImages, nNeeded, limit, rounds, 0);
      && ((outcome == Success(AlreadyComplete)) <==> (id in folders && PngCount(folders[id]) == nImages))
      && (outcome == Success(AlreadyComplete) ==> after == folders)
      && (outcome != Success(AlreadyComplete) ==>
            && (sample.Failure? ==> outcome == Failure(sample.error) && after == present)
            && (sample.Success? ==>
                  var stored := Store(before, id, sample.value.locations, sample.value.complete, download);
                  outcome == Success(stored.0) && after == present[id := stored.1]))
  {
  }

  /** The job for one ID changes no other ID's sub-directory and removes none. */
  lemma CollectTouchesOnlyItsFolder(folders: map<string, Folder>, id: string, nImages: nat, limit: int, rounds: Rounds,
                                    download: Download)
    requires RoundsBounded(nImages, rounds) && MaxRounds(limit) <= |rounds|
    ensures
      var after := Collect(folders, id, nImages, limit, rounds, download).1;
      && after.Keys == folders.Keys + {id}
      && forall other :: other in folders && other != id ==> after[other] == folders[other]
  {
  }

  /**
   * When the sampler found enough locations, the sub-directory ends with
   * exactly n_images "*.png" files (provided it did not already hold more).
   */
  lemma CollectFillsFolder(folders: map<string, Folder>, id: string, nImages: nat, limit: int, rounds: Rounds, download: Download)
    requires RoundsBounded(nImages, rounds) && MaxRounds(limit) <= |rounds|
    requires id in folders ==> PngCount(folders[id]) <= nImages
    ensures
      var (outcome, after) := Collect(folders, id, nImages, limit, rounds, download);
      outcome.Success? && (outcome.value.AlreadyComplete? || outcome.value.complete) ==> PngCount(after[id]) == nImages
  {
    var (outcome, after) := Collect(folders, id, nImages, limit, rounds, download);
    var f := if id in folders then folders[id] else map[];
    if outcome.Success? && outcome.value.Fetched? {
      StorePngCount(f, id, outcome.value.locations, outcome.value.complete, download);
    }
  }

  /** Why get_street_view_image stopped early. */
  datatype StreetViewError = IdsLocationsLength | LatLon(cause: LatLonError)

  /** The jobs for IDs i.. in order, as with one job: the outcomes and the sub-directories afterwards. */
  function CollectFrom(folders: map<string, Folder>, ids: seq<string>, locs: seq<Location>, destination: Offset -> Location,
                       nImages: nat, limit: int, trials: seq<seq<Trial>>, download: Download, i: nat)
    : (Result<seq<TaskOutcome>, LatLonError>, map<string, Folder>)
    requires |locs| == |ids| == |trials| && i <= |ids|
    requires forall m :: 0 <= m < |trials| ==> AllWellShaped(nImages, trials[m]) && MaxRounds(limit) <= |trials[m]|
    decreases |ids| - i
  {
    if i == |ids| then (Success([]), folders)
    else
      RoundResultsBounded(locs[i], destination, nImages, trials[i]);
      var one := Collect(folders, ids[i], nImages, limit, RoundResults(locs[i], destination, nImages, trials[i]), download);
      if one.0.Failure? then (Failure(one.0.error), one.1)
      else
        var rest := CollectFrom(one.1, ids, locs, destination, nImages, limit, trials, download, i + 1);
        (if rest.0.Success? then Success([one.0.value] + rest.0.value) else rest.0, rest.1)
  }

  /** A run from some ID on is the run seen so far (`done`) followed by what remains. */
  predicate Continues(run: (Result<seq<TaskOutcome>, LatLonError>, map<string, Folder>), done: seq<TaskOutcome>,
                      rest: (Result<seq<TaskOutcome>, LatLonError>, map<string, Folder>))
  {
    run.1 == rest.1 && run.0 == (if rest.0.Success? then Success(done + rest.0.value) else rest.0)
  }

  /** One step of CollectFrom: ID i's job, then the rest, unless the job failed. */
  lemma CollectFromStep(folders: map<string, Folder>, ids: seq<string>, locs: seq<Location>, destination: Offset -> Location,
                        nImages: nat, limit: int, trials: seq<seq<Trial>>, download: Download, i: nat)
    requires |locs| == |ids| == |trials| && i < |ids|
    requires forall m :: 0 <= m < |trials| ==> AllWellShaped(nImages, trials[m]) && MaxRounds(limit) <= |trials[m]|
    ensures AllWellShaped(nImages, trials[i]) && MaxRounds(limit) <= |trials[i]|
    ensures RoundsBounded(nImages, RoundResults(locs[i], destination, nImages, trials[i]))
    ensures
      var one := Collect(folders, ids[i], nImages, limit, RoundResults(locs[i], destination, nImages, trials[i]), download);
      var rest := CollectFrom(one.1, ids, locs, destination, nImages, limit, trials, download, i + 1);
      CollectFrom(folders, ids, locs, destination, nImages, limit, trials, download, i)
        == if one.0.Failure? then (Failure(one.0.error), one.1)
           else (if rest.0.Success? then Success([one.0.value] + rest.0.value) else rest.0, rest.1)
  {
    RoundResultsBounded(locs[i], destination, nImages, trials[i]);
  }

  /** The search for an unused name: bump j while "image{j}.png" exists. */
  method NextUnused(f: Folder, j0: nat) returns (j: nat)
    ensures j == FirstUnusedFrom(f, j0)
  {
    j := j0;
    while Image(j) in f
      invariant j0 <= j && FirstUnusedFrom(f, j) == FirstUnusedFrom(f, j0)
      decreases |UsedFrom(f, j)|
    {
      assert UsedFrom(f, j + 1) == UsedFrom(f, j) - {Image(j)};
      j := j + 1;
    }
  }

  /** The loop over the locations, each written under the next unused name. */
  method SaveAll(start: Folder, id: string, locs: seq<Location>, download: Download) returns (f: Folder, names: seq<nat>)
    ensures (f, names) == Save(start, id, locs, download, 0, 0)
  {
    f := start;
    names := [];
    var j: nat := 0;
    assert [] + Save(start, id, locs, download, 0, 0).1 == Save(start, id, locs, download, 0, 0).1;
    for k := 0 to |locs|
      invariant Save(start, id, locs, download, 0, 0) ==
                (Save(f, id, locs, download, k, j).0, names + Save(f, id, locs, download, k, j).1)
    {
      var slot := NextUnused(f, j);
      ghost var tail := Save(f[Image(slot) := [Bytes(download(id, k, locs[k]))]], id, locs, download, k + 1, slot);
      assert Save(f, id, locs, download, k, j) == (tail.0, [slot] + tail.1);
      f := f[Image(slot) := [Bytes(download(id, k, locs[k]))]];
      assert names + ([slot] + tail.1) == (names + [slot]) + tail.1;
      names := names + [slot];
      j := slot;
    }
    assert Save(f, id, locs, download, |locs|, j) == (f, []);
    assert names + [] == names;
  }

  /**
   * The output directory of get_street_view_image: whether it exists, and
   * each ID's sub-directory by the ID's string.
   */
  class StreetViewStore {
    var dirExists: bool
    var folders: map<string, Folder>

    constructor(dirExists: bool, folders: map<string, Folder>)
      ensures this.dirExists == dirExists && this.folders == folders
    {
      this.dirExists := dirExists;
      this.folders := folders;
    }

    /**
     * The naming-and-saving loop (street_view.py:406-426): for each
     * location, bump j past every existing "image{j}.png", then write the
     * downloaded bytes there.
     */
    method SaveImages(id: string, locs: seq<Location>, download: Download) returns (names: seq<nat>)
      requires id in folders
      modifies this
      ensures dirExists == old(dirExists)
      ensures folders == old(folders)[id := Save(old(folders[id]), id, locs, download, 0, 0).0]
      ensures names == Save(old(folders[id]), id, locs, download, 0, 0).1
    {
      var saved, indices := SaveAll(folders[id], id, locs, download);
      folders := folders[id := saved];
      names := indices;
    }

    /** The loc.csv step (street_view.py:430-439): append if the file exists, create with a header otherwise. */
    method WriteJournal(id: string, names: seq<nat>, locs: seq<Location>)
      requires id in folders && |names| == |locs|
      modifies this
      ensures dirExists == old(dirExists)
      ensures folders == old(folders)[id := old(folders[id])[LocJournal :=
                Journal(if LocJournal in old(folders[id]) then Some(old(folders[id])[LocJournal]) else None, names, locs)]]
    {
      var rows := Rows(names, locs);
      if LocJournal in folders[id] {
        folders := folders[id := folders[id][LocJournal := folders[id][LocJournal] + rows]];
      } else {
        folders := folders[id := folders[id][LocJournal := [LocHeader] + rows]];
      }
    }

    /**
     * The part of collect_gsv_images_for_each_id after the resume check
     * (street_view.py:334-439): sample the locations, save their images,
     * record them in loc.csv.
     */
    method FetchForId(id: string, anchor: Location, destination: Offset -> Location, nImages: nat, nNeeded: int,
                      limit: int, trials: seq<Trial>, download: Download) returns (outcome: Result<TaskOutcome, LatLonError>)
      requires id in folders && AllWellShaped(nImages, trials) && MaxRounds(limit) <= |trials|
      modifies this
      ensures dirExists == old(dirExists)
      ensures RoundsBounded(nImages, RoundResults(anchor, destination, nImages, trials))
      ensures (outcome, folders) == Fetch(old(folders), id, nImages, nNeeded, limit, RoundResults(anchor, destination, nImages, trials), download)
    {
      var sample := SampleValidLocations(anchor, destination, nImages, nNeeded, limit, trials);
      if sample.Failure? {
        return Failure(sample.error);
      }
      ghost var stored := Store(folders[id], id, sample.value.locations, sample.value.complete, download);
      ghost var before := folders;
      var names := SaveImages(id, sample.value.locations, download);
      WriteJournal(id, names, sample.value.locations);
      outcome := Success(Fetched(names, sample.value.locations, sample.value.complete));
      assert outcome == Success(stored.0) && folders == before[id := stored.1];
    }

    /** collect_gsv_images_for_each_id for one ID (street_view.py:310-439). */
    method CollectForId(id: string, anchor: Location, destination: Offset -> Location, nImages: nat, limit: int,
                        trials: seq<Trial>, download: Download) returns (outcome: Result<TaskOutcome, LatLonError>)
      requires AllWellShaped(nImages, trials) && MaxRounds(limit) <= |trials|
      modifies this
      ensures dirExists == old(dirExists)
      ensures RoundsBounded(nImages, RoundResults(anchor, destination, nImages, trials))
      ensures (outcome, folders) == Collect(old(folders), id, nImages, limit, RoundResults(anchor, destination, nImages, trials), download)
    {
      RoundResultsBounded(anchor, destination, nImages, trials);
      CollectFetches(folders, id, nImages, limit, RoundResults(anchor, destination, nImages, trials), download);
      var nExisting: int;
      if id !in folders {
        folders := folders[id := map[]];
        nExisting := 0;
      } else {
        nExisting := PngCount(folders[id]);
        if nExisting == nImages {
          return Success(AlreadyComplete);
        }
      }
      outcome := FetchForId(id, anchor, destination, nImages, nImages - nExisting, limit, trials, download);
    }

    /**
     * get_street_view_image with one job (street_view.py:290-445): the
     * length check, the output directory, then each ID's job in order; an
     * error in a job ends the run.
     */
    method GetStreetViewImage(ids: seq<string>, locs: seq<Location>, destination: Offset -> Location, nImages: nat,
                              limit: int, trials: seq<seq<Trial>>, download: Download)
      returns (r: Result<seq<TaskOutcome>, StreetViewError>)
      requires |trials| == |ids|
      requires forall m :: 0 <= m < |trials| ==> AllWellShaped(nImages, trials[m]) && MaxRounds(limit) <= |trials[m]|
      modifies this
      ensures |ids| != |locs| ==> r == Failure(IdsLocationsLength) && dirExists == old(dirExists) && folders == old(folders)
      ensures |ids| == |locs| ==>
        var run := CollectFrom(old(folders), ids, locs, destination, nImages, limit, trials, download, 0);
        && dirExists
        && folders == run.1
        && r == (if run.0.Success? then Success(run.0.value) else Failure(LatLon(run.0.error)))
    {
      if |ids| != |locs| {
        return Failure(IdsLocationsLength);
      }
      if !dirExists {
        dirExists := true;
      }
      var outcomes: seq<TaskOutcome> := [];
      ghost var run := CollectFrom(folders, ids, locs, destination, nImages, limit, trials, download, 0);
      assert run.0.Success? ==> outcomes + run.0.value == run.0.value;
      for i := 0 to |ids|
        invariant dirExists
        invariant Continues(run, outcomes, CollectFrom(folders, ids, locs, destination, nImages, limit, trials, download, i))
      {
        ghost var here := folders;
        CollectFromStep(here, ids, locs, destination, nImages, limit, trials, download, i);
        var one := CollectForId(ids[i], locs[i], destination, nImages, limit, trials[i], download);
        if one.Failure? {
          return Failure(LatLon(one.error));
        }
        ghost var rest := CollectFrom(folders, ids, locs, destination, nImages, limit, trials, download, i + 1);
        assert rest.0.Success? ==> outcomes + ([one.value] + rest.0.value) == (outcomes + [one.value]) + rest.0.value;
        outcomes := outcomes + [one.value];
      }
      assert outcomes + [] == outcomes;
      r := Success(outcomes);
    }
  }
}
