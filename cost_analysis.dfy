/**
 * The arithmetic of gmap_retrieval/cost_analysis.py: calculate_cost's
 * tiered pricing, and get_n_api_calls's argument checks and its count of
 * Nearby Search requests.
 *
 * Directory contents are inputs: the png/json counts the source globs for,
 * and for each nearby-places sub-directory the number of results in each
 * "{place type}.json".
 */
module CostAnalysis {
  import opened Basics
  import PlaceTypes

  // ---------------------------------------------------------------------
  // Tiers
  // ---------------------------------------------------------------------

  /** np.maximum(x, 0). */
  function Pos(x: real): (r: real)
    ensures r >= 0.0 && r >= x
    ensures r == x || r == 0.0
  {
    if x > 0.0 then x else 0.0
  }

  /** Calls beyond each threshold: max(n - t_i, 0). */
  function Beyond(n: real, thresholds: seq<real>): (r: seq<real>)
    ensures |r| == |thresholds|
  {
    seq(|thresholds|, i requires 0 <= i < |thresholds| => Pos(n - thresholds[i]))
  }

  /**
   * The calls of each price range: tier i gets the calls beyond t_i that are
   * not beyond t_{i+1}; the last tier gets all calls beyond its threshold.
   */
  function TierSplit(n: real, thresholds: seq<real>): (r: seq<real>)
    ensures |r| == |thresholds|
  {
    var b := Beyond(n, thresholds);
    seq(|thresholds|, i requires 0 <= i < |thresholds| => if i + 1 < |thresholds| then b[i] - b[i + 1] else b[i])
  }

  predicate Ascending(thresholds: seq<real>)
  {
    forall i, j :: 0 <= i < j < |thresholds| ==> thresholds[i] <= thresholds[j]
  }

  /**
   * n_calls_by_range: the calls beyond each threshold, then, from the first
   * range on, each range loses what the next one holds.
   */
  method TierCalls(n: real, thresholds: seq<real>) returns (byRange: array<real>)
    ensures fresh(byRange)
    ensures byRange[..] == TierSplit(n, thresholds)
  {
    byRange := new real[|thresholds|](i requires 0 <= i < |thresholds| => Pos(n - thresholds[i]));
    var m := byRange.Length;
    if m == 0 {
      return;
    }
    for i := 0 to m - 1
      invariant forall k :: 0 <= k < i ==> byRange[k] == TierSplit(n, thresholds)[k]
      invariant forall k :: i <= k < m ==> byRange[k] == Pos(n - thresholds[k])
    {
      byRange[i] := byRange[i] - byRange[i + 1];
    }
  }

  /** The tiers telescope: together they hold every call beyond the first threshold. */
  lemma {:induction false} TierSplitSum(n: real, thresholds: seq<real>)
    requires |thresholds| >= 1
    ensures Sum(TierSplit(n, thresholds)) == Pos(n - thresholds[0])
    decreases |thresholds|
  {
    var split := TierSplit(n, thresholds);
    if |thresholds| == 1 {
      assert split[1..] == [];
    } else {
      TierSplitSum(n, thresholds[1..]);
      assert split[1..] == TierSplit(n, thresholds[1..]);
    }
  }

  /** With ascending thresholds starting at 0, the tiers split the n >= 0 calls: none is negative and they sum to n. */
  lemma TierSplitPartitions(n: real, thresholds: seq<real>)
    requires |thresholds| >= 1 && thresholds[0] == 0.0 && Ascending(thresholds) && n >= 0.0
    ensures Sum(TierSplit(n, thresholds)) == n
    ensures forall i :: 0 <= i < |thresholds| ==> TierSplit(n, thresholds)[i] >= 0.0
  {
    TierSplitSum(n, thresholds);
  }

  /** A tier never holds more calls than its range is wide. */
  lemma TierSplitWithinRange(n: real, thresholds: seq<real>, i: nat)
    requires Ascending(thresholds) && i + 1 < |thresholds|
    ensures TierSplit(n, thresholds)[i] <= thresholds[i + 1] - thresholds[i]
  {
  }

  // ---------------------------------------------------------------------
  // calculate_cost
  // ---------------------------------------------------------------------

  /** A row of the price table: an API and its price per 1000 calls in each range. */
  datatype PriceRow = PriceRow(api: string, rates: seq<real>)

  /** The price table: the range thresholds (its columns) and one row per API (its index). */
  datatype PriceTable = PriceTable(thresholds: seq<real>, rows: seq<PriceRow>)

  /** A data frame shape: one rate per threshold in every row, and a unique index. */
  predicate WellFormed(table: PriceTable)
  {
    && (forall k :: 0 <= k < |table.rows| ==> |table.rows[k].rates| == |table.thresholds|)
    && (forall k, l :: 0 <= k < l < |table.rows| ==> table.rows[k].api != table.rows[l].api)
  }

  /** The default table: prices of May 3, 2020, with a cheaper range from 100,000 calls. */
  const DefaultTable: PriceTable := PriceTable([0.0, 100000.0], [
    PriceRow("static_maps", [2.0, 1.6]),
    PriceRow("nearby_search", [40.0, 32.0]),
    PriceRow("static_street_view", [7.0, 5.6]),
    PriceRow("places_details(atmosphere)", [22.0, 17.6])
  ])

  function ApiNames(rows: seq<PriceRow>): set<string>
  {
    set k | 0 <= k < |rows| :: rows[k].api
  }

  /** The price of some calls at a rate per 1000 calls. */
  function Charge(calls: real, rate: real): real
  {
    calls * (rate / 1000.0)
  }

  /** Sum of calls times rate per 1000. */
  function Weighted(calls: seq<real>, rates: seq<real>): real
    requires |calls| == |rates|
    decreases |calls|
  {
    if calls == [] then 0.0 else Charge(calls[0], rates[0]) + Weighted(calls[1..], rates[1..])
  }

  /** The price of n calls to one API. */
  function ApiPrice(n: real, thresholds: seq<real>, rates: seq<real>): real
    requires |rates| == |thresholds|
  {
    Weighted(TierSplit(n, thresholds), rates)
  }

  /** n_api_calls: the calls per location times the number of locations. */
  function Scaled(perLocation: real, nLoc: int): real
  {
    perLocation * nLoc as real
  }

  datatype CostError = IndexMismatch

  /**
   * The figures calculate_cost prints: the prices dictionary, in the order
   * of the table's rows, and the total.
   */
  datatype Cost = Cost(prices: seq<(string, real)>, total: real)

  /** Every API of the table has a figure among the calls. */
  predicate Covers(rows: seq<PriceRow>, calls: map<string, real>)
  {
    forall k :: 0 <= k < |rows| ==> rows[k].api in calls
  }

  /** The prices dictionary: each API of the table with the price of its calls per location times nLoc. */
  function Prices(table: PriceTable, calls: map<string, real>, nLoc: int): (r: seq<(string, real)>)
    requires WellFormed(table) && Covers(table.rows, calls)
    ensures |r| == |table.rows|
  {
    seq(|table.rows|, k requires 0 <= k < |table.rows| =>
      (table.rows[k].api, ApiPrice(Scaled(calls[table.rows[k].api], nLoc), table.thresholds, table.rows[k].rates)))
  }

  /** sum(prices.values()), added up in insertion order. */
  function SumOfPrices(prices: seq<(string, real)>): real
  {
    if prices == [] then 0.0 else SumOfPrices(prices[..|prices| - 1]) + prices[|prices| - 1].1
  }

  lemma NamesCover(rows: seq<PriceRow>, calls: map<string, real>)
    requires ApiNames(rows) <= calls.Keys
    ensures Covers(rows, calls)
  {
    forall k | 0 <= k < |rows| ensures rows[k].api in calls {
      assert rows[k].api in ApiNames(rows);
    }
  }

  /**
   * calculate_cost's figures for the price table t: an
   * error when the API names of the calls and of the table differ, and
   * otherwise each API's price with the total of the prices plus the extra
   * expense.
   */
  function CostOf(nLoc: int, t: PriceTable, calls: map<string, real>, extra: real): Result<Cost, CostError>
    requires WellFormed(t)
  {
    if calls.Keys != ApiNames(t.rows) then Failure(IndexMismatch)
    else
      NamesCover(t.rows, calls);
      var prices := Prices(t, calls, nLoc);
      Success(Cost(prices, SumOfPrices(prices) + extra))
  }

  /** The price table used: the given one, or the default table. */
  function TableOrDefault(table: Option<PriceTable>): PriceTable
  {
    if table.Some? then table.value else DefaultTable
  }

  lemma DefaultTableWellFormed()
    ensures WellFormed(DefaultTable)
  {
  }

  /**
   * The error is raised exactly when the two index sets differ; otherwise
   * there is one price per row of the table, keyed by the row's API, so the
   * keys of the dictionary are those of the table.
   */
  lemma CostIndexCheck(nLoc: int, t: PriceTable, calls: map<string, real>, extra: real)
    requires WellFormed(t)
    ensures CostOf(nLoc, t, calls, extra).Failure? <==> calls.Keys != ApiNames(t.rows)
    ensures CostOf(nLoc, t, calls, extra).Success? ==>
      var prices := CostOf(nLoc, t, calls, extra).value.prices;
      |prices| == |t.rows| && forall k :: 0 <= k < |t.rows| ==> prices[k].0 == t.rows[k].api
  {
  }

  /** The calls per location times n_loc: the figures for n_loc locations are those of one location making all the calls. */
  lemma TotalCallsDecide(nLoc: int, t: PriceTable, calls: map<string, real>, extra: real)
    requires WellFormed(t)
    ensures CostOf(nLoc, t, calls, extra) == CostOf(1, t, map a | a in calls :: calls[a] * nLoc as real, extra)
  {
    var total := map a | a in calls :: calls[a] * nLoc as real;
    assert total.Keys == calls.Keys;
    if calls.Keys == ApiNames(t.rows) {
      NamesCover(t.rows, calls);
      NamesCover(t.rows, total);
      forall k | 0 <= k < |t.rows|
        ensures Prices(t, calls, nLoc)[k] == Prices(t, total, 1)[k]
      {
        var a := t.rows[k].api;
        assert Scaled(total[a], 1) == Scaled(calls[a], nLoc);
      }
      assert Prices(t, calls, nLoc) == Prices(t, total, 1);
    }
  }

  /** Rates that are not negative give prices that are not negative, under ascending thresholds from 0. */
  lemma {:induction false} WeightedNonNegative(calls: seq<real>, rates: seq<real>)
    requires |calls| == |rates|
    requires forall k :: 0 <= k < |calls| ==> calls[k] >= 0.0 && rates[k] >= 0.0
    ensures Weighted(calls, rates) >= 0.0
    decreases |calls|
  {
    if calls != [] {
      WeightedNonNegative(calls[1..], rates[1..]);
      assert Charge(calls[0], rates[0]) >= 0.0;
    }
  }

  /** An API whose rates are not negative costs nothing negative, whatever its number of calls. */
  lemma PriceNonNegative(n: real, thresholds: seq<real>, rates: seq<real>)
    requires |rates| == |thresholds| >= 1 && thresholds[0] == 0.0 && Ascending(thresholds)
    requires forall k :: 0 <= k < |rates| ==> rates[k] >= 0.0
    ensures ApiPrice(n, thresholds, rates) >= 0.0
  {
    if n >= 0.0 {
      TierSplitPartitions(n, thresholds);
    } else {
      forall i | 0 <= i < |thresholds| ensures TierSplit(n, thresholds)[i] >= 0.0 {
        assert Beyond(n, thresholds)[i] == 0.0;
      }
    }
    WeightedNonNegative(TierSplit(n, thresholds), rates);
  }

  /** The loop over the rows of the price table: each API's calls split into ranges and priced. */
  method PriceEachApi(t: PriceTable, calls: map<string, real>, nLoc: int) returns (prices: seq<(string, real)>)
    requires WellFormed(t) && Covers(t.rows, calls)
    ensures prices == Prices(t, calls, nLoc)
  {
    prices := [];
    for k := 0 to |t.rows|
      invariant prices == Prices(t, calls, nLoc)[..k]
    {
      var row := t.rows[k];
      var byRange := TierCalls(Scaled(calls[row.api], nLoc), t.thresholds);
      prices := prices + [(row.api, Weighted(byRange[..], row.rates))];
    }
  }

  /** sum(prices.values()). */
  method SumPrices(prices: seq<(string, real)>) returns (total: real)
    ensures total == SumOfPrices(prices)
  {
    total := 0.0;
    for k := 0 to |prices|
      invariant total == SumOfPrices(prices[..k])
    {
      assert prices[..k + 1][..k] == prices[..k];
      total := total + prices[k].1;
    }
    assert prices[..|prices|] == prices;
  }

  /**
   * calculate_cost: check the index sets, then for every row of the price
   * table split its API's calls into ranges and price them, and total the
   * prices with the extra expense.
   */
  method CalculateCost(nLoc: int, table: Option<PriceTable>, calls: map<string, real>, extra: real)
    returns (r: Result<Cost, CostError>)
    requires table.Some? ==> WellFormed(table.value)
    ensures WellFormed(TableOrDefault(table))
    ensures r == CostOf(nLoc, TableOrDefault(table), calls, extra)
  {
    var t := TableOrDefault(table);
    DefaultTableWellFormed();
    if calls.Keys != ApiNames(t.rows) {
      return Failure(IndexMismatch);
    }
    NamesCover(t.rows, calls);
    var prices := PriceEachApi(t, calls, nLoc);
    var total := SumPrices(prices);
    return Success(Cost(prices, total + extra));
  }

  /** The same number of calls to each of the four APIs. */
  function EachApi(n: real): map<string, real>
  {
    map["static_maps" := n, "nearby_search" := n, "static_street_view" := n, "places_details(atmosphere)" := n]
  }

  lemma DefaultApiNames()
    ensures ApiNames(DefaultTable.rows) == EachApi(0.0).Keys
  {
    var rows := DefaultTable.rows;
    assert rows[0].api == "static_maps" && rows[1].api == "nearby_search";
    assert rows[2].api == "static_street_view" && rows[3].api == "places_details(atmosphere)";
  }

  lemma WeightedTwo(a: real, b: real, x: real, y: real)
    ensures Weighted([a, b], [x, y]) == Charge(a, x) + Charge(b, y)
  {
    assert [b][1..] == [] && [y][1..] == [];
    assert Weighted([b], [y]) == Charge(b, y);
    assert [a, b][1..] == [b] && [x, y][1..] == [y];
  }

  /** The price of n calls under the default table's two ranges. */
  lemma DefaultPrice(n: real, x: real, y: real)
    ensures ApiPrice(n, [0.0, 100000.0], [x, y])
         == Charge(Pos(n) - Pos(n - 100000.0), x) + Charge(Pos(n - 100000.0), y)
  {
    var split := TierSplit(n, [0.0, 100000.0]);
    assert split == [Pos(n) - Pos(n - 100000.0), Pos(n - 100000.0)];
    WeightedTwo(split[0], split[1], x, y);
  }

  /** The price of n calls under the default table's two ranges, written out. */
  function DefaultApiPrice(n: real, x: real, y: real): real
  {
    Charge(Pos(n) - Pos(n - 100000.0), x) + Charge(Pos(n - 100000.0), y)
  }

  /** The default prices of n calls to each API, in the table's order. */
  function DefaultPrices(n: real): seq<(string, real)>
  {
    [("static_maps", DefaultApiPrice(n, 2.0, 1.6)),
     ("nearby_search", DefaultApiPrice(n, 40.0, 32.0)),
     ("static_street_view", DefaultApiPrice(n, 7.0, 5.6)),
     ("places_details(atmosphere)", DefaultApiPrice(n, 22.0, 17.6))]
  }

  lemma DefaultPricesOf(n: real)
    ensures WellFormed(DefaultTable) && Covers(DefaultTable.rows, EachApi(n))
    ensures Prices(DefaultTable, EachApi(n), 1) == DefaultPrices(n)
  {
    DefaultTableWellFormed();
    var calls := EachApi(n);
    assert Scaled(n, 1) == n;
    DefaultPrice(n, 2.0, 1.6);
    DefaultPrice(n, 40.0, 32.0);
    DefaultPrice(n, 7.0, 5.6);
    DefaultPrice(n, 22.0, 17.6);
    assert calls["static_maps"] == n && calls["nearby_search"] == n;
    assert calls["static_street_view"] == n && calls["places_details(atmosphere)"] == n;
  }

  lemma DefaultTotal(n: real)
    ensures SumOfPrices(DefaultPrices(n))
         == DefaultApiPrice(n, 2.0, 1.6) + DefaultApiPrice(n, 40.0, 32.0)
          + DefaultApiPrice(n, 7.0, 5.6) + DefaultApiPrice(n, 22.0, 17.6)
  {
    var prices := DefaultPrices(n);
    assert prices[..1][..0] == [];
    assert prices[..2][..1] == prices[..1] && prices[..3][..2] == prices[..2] && prices[..3] == prices[..|prices| - 1];
    assert SumOfPrices(prices[..1]) == DefaultApiPrice(n, 2.0, 1.6);
    assert SumOfPrices(prices[..2]) == DefaultApiPrice(n, 2.0, 1.6) + DefaultApiPrice(n, 40.0, 32.0);
    assert SumOfPrices(prices[..3]) == SumOfPrices(prices[..2]) + DefaultApiPrice(n, 7.0, 5.6);
  }

  /** With the default table and n calls to each API at one location, each API is priced on its own rates. */
  lemma DefaultCost(n: real, extra: real)
    ensures CostOf(1, DefaultTable, EachApi(n), extra)
         == Success(Cost(DefaultPrices(n),
                         DefaultApiPrice(n, 2.0, 1.6) + DefaultApiPrice(n, 40.0, 32.0)
                           + DefaultApiPrice(n, 7.0, 5.6) + DefaultApiPrice(n, 22.0, 17.6) + extra))
  {
    DefaultPricesOf(n);
    DefaultTotal(n);
    DefaultApiNames();
    assert EachApi(n).Keys == ApiNames(DefaultTable.rows);
  }

  /** The test's first case: 5000 calls to each API at one location cost 10, 200, 35 and 110, in total 355. */
  lemma DefaultCostAt5000()
    ensures CostOf(1, DefaultTable, EachApi(5000.0), 0.0)
         == Success(Cost([("static_maps", 10.0), ("nearby_search", 200.0), ("static_street_view", 35.0),
                          ("places_details(atmosphere)", 110.0)], 355.0))
  {
    DefaultCost(5000.0, 0.0);
  }

  /** The test's second case: 200000 calls each with an extra 100 cost 360, 7200, 1260 and 3960, in total 12880. */
  lemma DefaultCostAt200000()
    ensures CostOf(1, DefaultTable, EachApi(200000.0), 100.0)
         == Success(Cost([("static_maps", 360.0), ("nearby_search", 7200.0), ("static_street_view", 1260.0),
                          ("places_details(atmosphere)", 3960.0)], 12880.0))
  {
    DefaultCost(200000.0, 100.0);
  }

  // ---------------------------------------------------------------------
  // get_n_api_calls
  // ---------------------------------------------------------------------

  /**
   * Requests behind a json file with c results: one per page of up to 20
   * results, and one for a search that found nothing.
   */
  function RequestsFor(c: nat): (r: nat)
    ensures r >= 1
    ensures c == 0 ==> r == 1
    ensures c > 0 ==> 20 * (r - 1) < c <= 20 * r
  {
    if c == 0 then 1 else (c + 19) / 20
  }

  /** The `satellite` argument: an int, a directory (given by its number of png files), or anything else. */
  datatype SatelliteArg = SatelliteCount(n: int) | SatelliteDir(pngFiles: nat) | SatelliteOther

  /** The `street_view` argument: an int, a directory (given by the png count of each sub-directory), or anything else. */
  datatype StreetViewArg = StreetViewCount(n: int) | StreetViewDir(pngFiles: seq<nat>) | StreetViewOther

  /** The four per-location figures; a street-view mean over no sub-directory is NaN (None). */
  datatype ApiCalls = ApiCalls(staticMaps: real, nearbySearch: real, streetView: Option<real>, placesDetails: real)

  datatype CallsError =
    | SatelliteType                           // ValueError: satellite is neither int nor str
    | StreetViewType                          // ValueError: street_view is neither int nor str
    | DivisionByZero                          // an int count divided by n_loc == 0
    | NegativeDimensions                      // np.zeros with n_loc < 0
    | MissingFile(location: nat, typ: nat)    // "{place type}.json" absent from a sub-directory
    | TooManyLocations(location: nat)         // a sub-directory beyond row n_loc - 1 of the count matrix

  /** The problem with cell (i, j) of the count matrix, if any: the file is opened before the cell is written. */
  function CellError(nLoc: int, types: seq<string>, subdirs: seq<map<string, nat>>, i: nat, j: nat): Option<CallsError>
    requires i < |subdirs| && j < |types|
  {
    if types[j] !in subdirs[i] then Some(MissingFile(i, j))
    else if i >= nLoc then Some(TooManyLocations(i))
    else None
  }

  /** The first problem from cell (i, j) on, row by row. */
  function FillError(nLoc: int, types: seq<string>, subdirs: seq<map<string, nat>>, i: nat, j: nat): (r: Option<CallsError>)
    requires i <= |subdirs| && j <= |types|
    ensures r.Some? ==> r.value.MissingFile? || r.value.TooManyLocations?
    decreases |subdirs| - i, |types| - j
  {
    if i == |subdirs| then None
    else if j == |types| then FillError(nLoc, types, subdirs, i + 1, 0)
    else if CellError(nLoc, types, subdirs, i, j).Some? then CellError(nLoc, types, subdirs, i, j)
    else FillError(nLoc, types, subdirs, i, j + 1)
  }

  /** Cell (i, j) of the filled count matrix: the result count of the file, or 0 for a location with no sub-directory. */
  function Cell(types: seq<string>, subdirs: seq<map<string, nat>>, i: nat, j: nat): nat
    requires j < |types|
  {
    if i < |subdirs| && types[j] in subdirs[i] then subdirs[i][types[j]] else 0
  }

  function RowRequests(types: seq<string>, subdirs: seq<map<string, nat>>, i: nat, n: nat): nat
    requires n <= |types|
  {
    if n == 0 then 0 else RowRequests(types, subdirs, i, n - 1) + RequestsFor(Cell(types, subdirs, i, n - 1))
  }

  /** ceil(count/20).sum() + (count == 0).sum() over the first m rows. */
  function MatrixRequests(types: seq<string>, subdirs: seq<map<string, nat>>, m: nat): nat
  {
    if m == 0 then 0 else MatrixRequests(types, subdirs, m - 1) + RowRequests(types, subdirs, m - 1, |types|)
  }

  /** A location without a sub-directory counts one request per place type. */
  lemma {:induction false} EmptyRowRequests(types: seq<string>, subdirs: seq<map<string, nat>>, i: nat, n: nat)
    requires i >= |subdirs| && n <= |types|
    ensures RowRequests(types, subdirs, i, n) == n
    decreases n
  {
    if n > 0 {
      EmptyRowRequests(types, subdirs, i, n - 1);
    }
  }

  /**
   * The nearby-search total: the requests behind the files of the listed
   * sub-directories, plus one per place type for every location beyond them.
   */
  lemma {:induction false} UnlistedLocationsCountOne(types: seq<string>, subdirs: seq<map<string, nat>>, m: nat)
    requires |subdirs| <= m
    ensures MatrixRequests(types, subdirs, m) == MatrixRequests(types, subdirs, |subdirs|) + (m - |subdirs|) * |types|
    decreases m
  {
    if m > |subdirs| {
      UnlistedLocationsCountOne(types, subdirs, m - 1);
      EmptyRowRequests(types, subdirs, m - 1, |types|);
      assert (m - |subdirs|) * |types| == (m - 1 - |subdirs|) * |types| + |types|;
    }
  }

  /** Every one of the n_loc x |types| files accounts for at least one request. */
  lemma {:induction false} AtLeastOneRequestPerFile(types: seq<string>, subdirs: seq<map<string, nat>>, m: nat)
    ensures MatrixRequests(types, subdirs, m) >= m * |types|
    decreases m
  {
    if m > 0 {
      AtLeastOneRequestPerFile(types, subdirs, m - 1);
      RowAtLeastOne(types, subdirs, m - 1, |types|);
      assert m * |types| == (m - 1) * |types| + |types|;
    }
  }

  lemma {:induction false} RowAtLeastOne(types: seq<string>, subdirs: seq<map<string, nat>>, i: nat, n: nat)
    requires n <= |types|
    ensures RowRequests(types, subdirs, i, n) >= n
    decreases n
  {
    if n > 0 {
      RowAtLeastOne(types, subdirs, i, n - 1);
    }
  }

  /** The png files of all street-view sub-directories, added up in listing order. */
  function PngTotal(counts: seq<nat>): nat
  {
    if counts == [] then 0 else PngTotal(counts[..|counts| - 1]) + counts[|counts| - 1]
  }

  /** counts.mean(): NaN (None) for no sub-directory. */
  function Mean(counts: seq<nat>): (r: Option<real>)
    ensures r.None? <==> counts == []
  {
    if counts == [] then None else Some(PngTotal(counts) as real / |counts| as real)
  }

  /** The place types searched: the given list, or the default list when none is given. */
  function TypesOrDefault(placeTypes: Option<seq<string>>): seq<string>
  {
    if placeTypes.Some? then placeTypes.value else PlaceTypes.DefaultPlaceTypes
  }

  /**
   * get_n_api_calls for the place types `types`: the per-location number of
   * requests of each API, or the first error the source would raise, in its
   * order: the satellite argument, the count matrix, the street-view
   * argument, the reviews.
   */
  function NApiCalls(nLoc: int, satellite: SatelliteArg, types: seq<string>,
                     nearby: seq<map<string, nat>>, streetView: StreetViewArg, reviewFiles: nat): Result<ApiCalls, CallsError>
  {
    if satellite.SatelliteOther? then Failure(SatelliteType)
    else if satellite.SatelliteDir? && nLoc == 0 then Failure(DivisionByZero)
    else if nLoc < 0 then Failure(NegativeDimensions)
    else if FillError(nLoc, types, nearby, 0, 0).Some? then Failure(FillError(nLoc, types, nearby, 0, 0).value)
    else if streetView.StreetViewOther? then Failure(StreetViewType)
    else if nLoc == 0 then Failure(DivisionByZero)
    else
      var staticMaps := if satellite.SatelliteCount? then satellite.n as real else satellite.pngFiles as real / nLoc as real;
      var nearbySearch := MatrixRequests(types, nearby, nLoc) as real / nLoc as real;
      var streetViews := if streetView.StreetViewCount? then Some(streetView.n as real) else Mean(streetView.pngFiles);
      Success(ApiCalls(staticMaps, nearbySearch, streetViews, reviewFiles as real / nLoc as real))
  }

  /** The first error of filling the count matrix, scanning row by row. */
  method FillCounts(nLoc: nat, types: seq<string>, nearby: seq<map<string, nat>>) returns (count: array2<nat>, error: Option<CallsError>)
    ensures fresh(count) && count.Length0 == nLoc && count.Length1 == |types|
    ensures error == FillError(nLoc, types, nearby, 0, 0)
    ensures error.None? ==> forall a, b :: 0 <= a < nLoc && 0 <= b < |types| ==> count[a, b] == Cell(types, nearby, a, b)
  {
    count := new nat[nLoc, |types|]((a, b) => 0);
    var i := 0;
    while i < |nearby|
      invariant 0 <= i <= |nearby|
      invariant FillError(nLoc, types, nearby, 0, 0) == FillError(nLoc, types, nearby, i, 0)
      invariant forall a, b :: 0 <= a < nLoc && 0 <= b < |types| ==> count[a, b] == (if a < i then Cell(types, nearby, a, b) else 0)
    {
      var j := 0;
      while j < |types|
        invariant 0 <= j <= |types|
        invariant FillError(nLoc, types, nearby, 0, 0) == FillError(nLoc, types, nearby, i, j)
        invariant forall a, b :: 0 <= a < nLoc && 0 <= b < |types| ==>
          count[a, b] == (if a < i || (a == i && b < j) then Cell(types, nearby, a, b) else 0)
      {
        if types[j] !in nearby[i] {
          return count, Some(MissingFile(i, j));
        }
        if i >= nLoc {
          return count, Some(TooManyLocations(i));
        }
        count[i, j] := nearby[i][types[j]];
        j := j + 1;
      }
      i := i + 1;
    }
    error := None;
  }

  /** ceil(count/20).sum() + (count == 0).sum(), row by row. */
  method CountRequests(types: seq<string>, nearby: seq<map<string, nat>>, count: array2<nat>) returns (requests: nat)
    requires count.Length1 == |types|
    requires forall a, b :: 0 <= a < count.Length0 && 0 <= b < |types| ==> count[a, b] == Cell(types, nearby, a, b)
    ensures requests == MatrixRequests(types, nearby, count.Length0)
  {
    requests := 0;
    for a := 0 to count.Length0
      invariant requests == MatrixRequests(types, nearby, a)
    {
      for b := 0 to |types|
        invariant requests == MatrixRequests(types, nearby, a) + RowRequests(types, nearby, a, b)
      {
        requests := requests + RequestsFor(count[a, b]);
      }
    }
  }

  /** counts.mean() over the street-view sub-directories. */
  method MeanOf(counts: seq<nat>) returns (r: Option<real>)
    ensures r == Mean(counts)
  {
    if counts == [] {
      return None;
    }
    var total := 0;
    for k := 0 to |counts|
      invariant total == PngTotal(counts[..k])
    {
      assert counts[..k + 1][..k] == counts[..k];
      total := total + counts[k];
    }
    assert counts[..|counts|] == counts;
    return Some(total as real / |counts| as real);
  }

  /** get_n_api_calls: the default place types when none are given, then the checks and counts in the source's order. */
  method GetNApiCalls(nLoc: int, satellite: SatelliteArg, placeTypes: Option<seq<string>>,
                      nearby: seq<map<string, nat>>, streetView: StreetViewArg, reviewFiles: nat)
    returns (r: Result<ApiCalls, CallsError>)
    ensures r == NApiCalls(nLoc, satellite, TypesOrDefault(placeTypes), nearby, streetView, reviewFiles)
  {
    var types := TypesOrDefault(placeTypes);
    if satellite.SatelliteOther? {
      return Failure(SatelliteType);
    }
    var staticMaps: real;
    if satellite.SatelliteCount? {
      staticMaps := satellite.n as real;
    } else {
      if nLoc == 0 {
        return Failure(DivisionByZero);
      }
      staticMaps := satellite.pngFiles as real / nLoc as real;
    }
    if nLoc < 0 {
      return Failure(NegativeDimensions);
    }
    var count, error := FillCounts(nLoc, types, nearby);
    if error.Some? {
      return Failure(error.value);
    }
    var requests := CountRequests(types, nearby, count);
    var streetViews: Option<real>;
    if streetView.StreetViewCount? {
      streetViews := Some(streetView.n as real);
    } else if streetView.StreetViewDir? {
      streetViews := MeanOf(streetView.pngFiles);
    } else {
      return Failure(StreetViewType);
    }
    if nLoc == 0 {
      return Failure(DivisionByZero);
    }
    return Success(ApiCalls(staticMaps, requests as real / nLoc as real, streetViews, reviewFiles as real / nLoc as real));
  }

  /** A satellite or street_view argument that is neither an int nor a directory is refused; the satellite one first. */
  lemma ArgumentChecks(nLoc: int, satellite: SatelliteArg, types: seq<string>,
                       nearby: seq<map<string, nat>>, streetView: StreetViewArg, reviewFiles: nat)
    ensures satellite.SatelliteOther? ==>
      NApiCalls(nLoc, satellite, types, nearby, streetView, reviewFiles) == Failure(SatelliteType)
    ensures !satellite.SatelliteOther? && streetView.StreetViewOther? ==>
      NApiCalls(nLoc, satellite, types, nearby, streetView, reviewFiles).Failure? &&
      NApiCalls(nLoc, satellite, types, nearby, streetView, reviewFiles).error != SatelliteType
    ensures NApiCalls(nLoc, satellite, types, nearby, streetView, reviewFiles).Success? ==>
      nLoc > 0 && !satellite.SatelliteOther? && !streetView.StreetViewOther?
  {
  }

  /**
   * The count of the nearby-search requests per location: with every file
   * present and no more sub-directories than locations, the requests of the
   * files found plus one per place type for each location without a
   * sub-directory, divided by n_loc.
   */
  lemma NearbySearchCount(nLoc: int, satellite: SatelliteArg, types: seq<string>,
                          nearby: seq<map<string, nat>>, streetView: StreetViewArg, reviewFiles: nat)
    requires NApiCalls(nLoc, satellite, types, nearby, streetView, reviewFiles).Success?
    ensures |nearby| <= nLoc || |types| == 0
    ensures |nearby| <= nLoc ==>
      NApiCalls(nLoc, satellite, types, nearby, streetView, reviewFiles).value.nearbySearch
        == (MatrixRequests(types, nearby, |nearby|) + (nLoc - |nearby|) * |types|) as real / nLoc as real
  {
    assert FillError(nLoc, types, nearby, 0, 0).None?;
    if |nearby| > nLoc && |types| > 0 {
      NoFillErrorBound(nLoc, types, nearby, 0, 0);
    }
    if |nearby| <= nLoc {
      assert NApiCalls(nLoc, satellite, types, nearby, streetView, reviewFiles).value.nearbySearch
          == MatrixRequests(types, nearby, nLoc) as real / nLoc as real;
      UnlistedLocationsCountOne(types, nearby, nLoc);
    }
  }

  /** Without a fill error, every listed sub-directory fits in the matrix (when there is a column to write). */
  lemma {:induction false} NoFillErrorBound(nLoc: int, types: seq<string>, subdirs: seq<map<string, nat>>, i: nat, j: nat)
    requires i <= |subdirs| && j <= |types| && |types| > 0 && j == 0
    requires FillError(nLoc, types, subdirs, i, j).None?
    ensures i < |subdirs| ==> |subdirs| <= nLoc
    decreases |subdirs| - i
  {
    if i < |subdirs| {
      assert CellError(nLoc, types, subdirs, i, 0).None?;
      NoFillErrorRow(nLoc, types, subdirs, i, 0);
      NoFillErrorBound(nLoc, types, subdirs, i + 1, 0);
    }
  }

  lemma {:induction false} NoFillErrorRow(nLoc: int, types: seq<string>, subdirs: seq<map<string, nat>>, i: nat, j: nat)
    requires i < |subdirs| && j <= |types|
    requires FillError(nLoc, types, subdirs, i, j).None?
    ensures FillError(nLoc, types, subdirs, i + 1, 0).None?
    ensures forall k :: j <= k < |types| ==> CellError(nLoc, types, subdirs, i, k).None?
    decreases |types| - j
  {
    if j < |types| {
      NoFillErrorRow(nLoc, types, subdirs, i, j + 1);
    }
  }
}
