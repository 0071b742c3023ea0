/**
 * Pagination and record flattening of gmap_retrieval/nearby_places.py:
 * the status/retry rule of use_nearby_search, the in-place merge of
 * concat_next_page, the page loop and the skip/write rules of
 * get_nearby_places, and the row filter of create_csv_nearby_places.
 *
 * The Nearby Search API is a script of responses consumed in request order
 * (one response per request). Running off the end of the script stands for
 * the source requesting forever; the model reports it as `Stalled`.
 */
module NearbyPlaces {
  import opened Basics
  import PlaceTypes

  /** The `status` of a response. */
  datatype Status = Ok | ZeroResults | InvalidRequest | OtherStatus(name: string)

  /** One result of a Nearby Search, with the fields the csv reads; `location` holds str() of each coordinate. */
  datatype Place = Place(types: seq<string>, name: string, placeId: string, priceLevel: Option<int>,
                         rating: Option<real>, ratingsTotal: Option<int>, location: seq<string>)

  /** A response of the Nearby Search API, as the `data` dict. */
  datatype Page = Page(status: Status, results: seq<Place>, token: Option<string>)

  // ---------------------------------------------------------------------
  // use_nearby_search
  // ---------------------------------------------------------------------

  /**
   * The response use_nearby_search returns and the position after it: an
   * OK response ends the call; with next_page an INVALID_REQUEST (the
   * token is not valid yet) is asked again with request_count + 1 until
   * request_count reaches 3; any other response ends the call. None when
   * the script runs out.
   */
  function NearbySearch(script: seq<Page>, pos: nat, nextPage: bool, requestCount: nat): (r: Option<(Page, nat)>)
    ensures r.Some? ==> pos < r.value.1 <= |script|
    decreases |script| - pos
  {
    if pos >= |script| then None
    else
      var page := script[pos];
      if page.status == Ok then Some((page, pos + 1))
      else if page.status == InvalidRequest && nextPage then
        if requestCount >= 3 then Some((page, pos + 1))
        else NearbySearch(script, pos + 1, nextPage, requestCount + 1)
      else Some((page, pos + 1))
  }

  /** use_nearby_search: one request, and the recursive call on a token that is not valid yet. */
  method UseNearbySearch(script: seq<Page>, pos: nat, nextPage: bool, requestCount: nat) returns (r: Option<(Page, nat)>)
    ensures r == NearbySearch(script, pos, nextPage, requestCount)
    decreases |script| - pos
  {
    if pos >= |script| {
      return None;
    }
    var data := script[pos];
    if data.status == Ok {
      return Some((data, pos + 1));
    } else if data.status == InvalidRequest && nextPage {
      if requestCount >= 3 {
        return Some((data, pos + 1));
      }
      r := UseNearbySearch(script, pos + 1, nextPage, requestCount + 1);
    } else {
      return Some((data, pos + 1));
    }
  }

  /** Without next_page, the first response is returned, whatever its status. */
  lemma FirstPageAnswersAtOnce(script: seq<Page>, pos: nat, requestCount: nat)
    requires pos < |script|
    ensures NearbySearch(script, pos, false, requestCount) == Some((script[pos], pos + 1))
  {
  }

  /**
   * With next_page, the call returns the first response that is not
   * INVALID_REQUEST, after at most 4 - request_count responses; it returns
   * an INVALID_REQUEST only as the last of those. When the script runs out
   * first, every remaining response was INVALID_REQUEST.
   */
  lemma {:induction false} NextPageRetriesBounded(script: seq<Page>, pos: nat, requestCount: nat)
    requires requestCount <= 3
    ensures var r := NearbySearch(script, pos, true, requestCount);
      r.Some? ==>
        && r.value.0 == script[r.value.1 - 1]
        && r.value.1 - pos <= 4 - requestCount
        && (forall k :: pos <= k < r.value.1 - 1 ==> script[k].status == InvalidRequest)
        && (r.value.0.status == InvalidRequest ==> r.value.1 - pos == 4 - requestCount)
    ensures var r := NearbySearch(script, pos, true, requestCount);
      r.None? ==> |script| - pos < 4 - requestCount && forall k :: pos <= k < |script| ==> script[k].status == InvalidRequest
    decreases |script| - pos
  {
    if pos < |script| && script[pos].status == InvalidRequest && requestCount < 3 {
      NextPageRetriesBounded(script, pos + 1, requestCount + 1);
    }
  }

  // ---------------------------------------------------------------------
  // concat_next_page and the page loop
  // ---------------------------------------------------------------------

  /** `data` once a next page is merged into it: its results extended, its token the next page's. */
  function Merge(data: Page, next: Page): (r: Page)
    ensures r.status == data.status && r.token == next.token
    ensures |r.results| == |data.results| + |next.results|
    ensures r.results[..|data.results|] == data.results && r.results[|data.results|..] == next.results
  {
    Page(data.status, data.results + next.results, next.token)
  }

  /** The `data` dict that the page loop updates in place. */
  class SearchData {
    var status: Status
    var results: seq<Place>
    var token: Option<string>

    function Contents(): Page
      reads this
    {
      Page(status, results, token)
    }

    constructor(page: Page)
      ensures Contents() == page
    {
      status := page.status;
      results := page.results;
      token := page.token;
    }

    /**
     * concat_next_page: take the next page's token, or delete this one's
     * (a KeyError, with nothing changed, when neither has a token), then
     * extend the results.
     */
    method ConcatNextPage(next: Page) returns (ok: bool)
      modifies this
      ensures ok <==> next.token.Some? || old(token).Some?
      ensures ok ==> Contents() == Merge(old(Contents()), next)
      ensures !ok ==> Contents() == old(Contents())
    {
      if next.token.Some? {
        token := next.token;
      } else if token.Some? {
        token := None;
      } else {
        return false;
      }
      results := results + next.results;
      return true;
    }
  }

  /**
   * The page loop: while `data` has a next_page_token, request the next
   * page (with next_page); merge it when it is OK, and otherwise keep `data`
   * as it is, so that the same token is asked for again.
   */
  function PageLoop(data: Page, script: seq<Page>, pos: nat): Option<(Page, nat)>
    decreases |script| - pos
  {
    if data.token.None? then Some((data, pos))
    else match NearbySearch(script, pos, true, 0)
      case None => None
      case Some((next, pos')) => PageLoop(if next.status == Ok then Merge(data, next) else data, script, pos')
  }

  /**
   * The loop ends only on a page without a token; it keeps the status of
   * the first response and its results as a prefix, and never moves back
   * in the script.
   */
  lemma {:induction false} PageLoopEnds(data: Page, script: seq<Page>, pos: nat)
    ensures var r := PageLoop(data, script, pos);
      r.Some? ==>
        && r.value.0.token.None?
        && r.value.0.status == data.status
        && |data.results| <= |r.value.0.results|
        && r.value.0.results[..|data.results|] == data.results
        && pos <= r.value.1
    decreases |script| - pos
  {
    if data.token.Some? {
      match NearbySearch(script, pos, true, 0)
      case None =>
      case Some((next, pos')) =>
        var data' := if next.status == Ok then Merge(data, next) else data;
        PageLoopEnds(data', script, pos');
        var r := PageLoop(data', script, pos');
        if r.Some? {
          assert r.value.0.results[..|data'.results|][..|data.results|] == r.value.0.results[..|data.results|];
        }
    }
  }

  /** A continuation that is not OK changes nothing: the loop goes on from the same `data`. */
  lemma FailedContinuationKeepsData(data: Page, script: seq<Page>, pos: nat)
    requires data.token.Some?
    requires NearbySearch(script, pos, true, 0).Some? && NearbySearch(script, pos, true, 0).value.0.status != Ok
    ensures PageLoop(data, script, pos) == PageLoop(data, script, NearbySearch(script, pos, true, 0).value.1)
  {
  }

  /** The page loop of get_nearby_places over `data`. */
  method FetchPages(data: SearchData, script: seq<Page>, pos: nat) returns (r: Option<nat>)
    modifies data
    ensures var s := PageLoop(old(data.Contents()), script, pos);
      && (r.None? <==> s.None?)
      && (r.Some? ==> data.Contents() == s.value.0 && r.value == s.value.1)
  {
    var cur := pos;
    while data.token.Some?
      invariant PageLoop(data.Contents(), script, cur) == PageLoop(old(data.Contents()), script, pos)
      decreases |script| - cur
    {
      var next := UseNearbySearch(script, cur, true, 0);
      if next.None? {
        return None;
      }
      var (page, cur') := next.value;
      if page.status == Ok {
        var ok := data.ConcatNextPage(page);
      }
      cur := cur';
    }
    return Some(cur);
  }

  // ---------------------------------------------------------------------
  // get_nearby_places
  // ---------------------------------------------------------------------

  /** The `place_types` argument: None, a list, or anything else. */
  datatype TypesArg = DefaultTypes | TypesList(types: seq<string>) | NotAList

  datatype NearbyError =
    | PlaceTypesNotList            // TypeError: place_types is not a list
    | MissingLocation(index: nat)  // latitude_longitude has no entry i
    | Stalled                      // the script ran out
    | NoDirectory                  // os.listdir of a directory that does not exist
    | MissingJson(id: string, placeType: string)  // "{ID}/{place type}.json" cannot be opened

  /** How far a run got: the state it left, its position in the script, and whether the script ran out. */
  datatype Progress<T> = Progress(state: T, pos: nat, stalled: bool)

  /** The files of one location's sub-directory, by place type. */
  type Folder = map<string, Page>

  /**
   * One place type of one location: an existing "{place type}.json" is
   * skipped; otherwise the first page is requested, the page loop runs,
   * and the file is written only when the first status is OK or
   * ZERO_RESULTS.
   */
  function TypeStep(folder: Folder, placeType: string, script: seq<Page>, pos: nat): (r: Progress<Folder>)
    ensures r.pos >= pos
  {
    if placeType in folder then Progress(folder, pos, false)
    else match NearbySearch(script, pos, false, 0)
      case None => Progress(folder, pos, true)
      case Some((first, pos1)) =>
        PageLoopEnds(first, script, pos1);
        match PageLoop(first, script, pos1)
        case None => Progress(folder, pos1, true)
        case Some((data, pos2)) =>
          Progress(if first.status == Ok || first.status == ZeroResults then folder[placeType := data] else folder, pos2, false)
  }

  /** The place types of one location, in order, until the script runs out. */
  function TypesFrom(folder: Folder, types: seq<string>, script: seq<Page>, pos: nat): (r: Progress<Folder>)
    decreases |types|
  {
    if types == [] then Progress(folder, pos, false)
    else
      var step := TypeStep(folder, types[0], script, pos);
      if step.stalled then step else TypesFrom(step.state, types[1..], script, step.pos)
  }

  /** Existing files are kept as they are; a new file is one of the searched types, holds an OK or ZERO_RESULTS first response, and has no token left. */
  predicate Extends(before: Folder, after: Folder, types: seq<string>)
  {
    && (forall t :: t in before ==> t in after && after[t] == before[t])
    && (forall t :: t in after && t !in before ==>
          t in types && (after[t].status == Ok || after[t].status == ZeroResults) && after[t].token.None?)
  }

  lemma TypeStepExtends(folder: Folder, placeType: string, script: seq<Page>, pos: nat)
    ensures Extends(folder, TypeStep(folder, placeType, script, pos).state, [placeType])
  {
    if placeType !in folder {
      match NearbySearch(script, pos, false, 0)
      case None =>
      case Some((first, pos1)) =>
        PageLoopEnds(first, script, pos1);
    }
  }

  lemma {:induction false} TypesFromExtends(folder: Folder, types: seq<string>, script: seq<Page>, pos: nat)
    ensures Extends(folder, TypesFrom(folder, types, script, pos).state, types)
    decreases |types|
  {
    if types != [] {
      var step := TypeStep(folder, types[0], script, pos);
      TypeStepExtends(folder, types[0], script, pos);
      if !step.stalled {
        TypesFromExtends(step.state, types[1..], script, step.pos);
        var after := TypesFrom(step.state, types[1..], script, step.pos).state;
        forall t | t in after && t !in folder
          ensures t in types
        {
          if t in step.state {
            assert t == types[0];
          } else {
            assert t in types[1..];
          }
        }
      }
    }
  }

  /** The outcome of get_nearby_places on the sub-directories. */
  datatype NearbyRun = NearbyRun(folders: map<string, Folder>, pos: nat, error: Option<NearbyError>)

  /**
   * The locations from i on: the sub-directory of IDs[i] is made when
   * missing, then latitude_longitude[i] is read (a KeyError past its end),
   * then the place types are searched.
   */
  function IdsFrom(folders: map<string, Folder>, ids: seq<string>, nLocations: nat, types: seq<string>,
                   i: nat, script: seq<Page>, pos: nat): NearbyRun
    requires i <= |ids|
    decreases |ids| - i
  {
    if i == |ids| then NearbyRun(folders, pos, None)
    else
      var id := ids[i];
      var folders' := if id in folders then folders else folders[id := map[]];
      if i >= nLocations then NearbyRun(folders', pos, Some(MissingLocation(i)))
      else
        var p := TypesFrom(folders'[id], types, script, pos);
        var folders'' := folders'[id := p.state];
        if p.stalled then NearbyRun(folders'', p.pos, Some(Stalled))
        else IdsFrom(folders'', ids, nLocations, types, i + 1, script, p.pos)
  }

  /**
   * Across a whole run, no existing file changes, and every new file is
   * one of the searched place types under one of the IDs, written from an
   * OK or ZERO_RESULTS response with all its pages merged.
   */
  lemma {:induction false} IdsFromExtends(folders: map<string, Folder>, ids: seq<string>, nLocations: nat,
                                          types: seq<string>, i: nat, script: seq<Page>, pos: nat)
    requires i <= |ids|
    ensures var after := IdsFrom(folders, ids, nLocations, types, i, script, pos).folders;
      && (forall id :: id in folders ==> id in after && Extends(folders[id], after[id], types))
      && (forall id :: id in after && id !in folders ==> id in ids[i..] && Extends(map[], after[id], types))
    decreases |ids| - i
  {
    if i < |ids| {
      var id := ids[i];
      var folders' := if id in folders then folders else folders[id := map[]];
      if i < nLocations {
        var p := TypesFrom(folders'[id], types, script, pos);
        TypesFromExtends(folders'[id], types, script, pos);
        var folders'' := folders'[id := p.state];
        if !p.stalled {
          IdsFromExtends(folders'', ids, nLocations, types, i + 1, script, p.pos);
          var after := IdsFrom(folders'', ids, nLocations, types, i + 1, script, p.pos).folders;
          forall x | x in folders ensures x in after && Extends(folders[x], after[x], types) {
            assert Extends(folders''[x], after[x], types);
          }
          forall x | x in after && x !in folders ensures x in ids[i..] && Extends(map[], after[x], types) {
            if x == id {
              assert Extends(folders''[x], after[x], types);
            } else {
              assert x in ids[i + 1..];
            }
          }
        }
      }
    }
  }

  /** The place types searched: the default list for None. */
  function ResolveTypes(placeTypes: TypesArg): seq<string>
    requires !placeTypes.NotAList?
  {
    if placeTypes.TypesList? then placeTypes.types else PlaceTypes.DefaultPlaceTypes
  }

  // ---------------------------------------------------------------------
  // create_csv_nearby_places
  // ---------------------------------------------------------------------

  /** One row of the nearby-places table; None stands for NaN. */
  datatype NearbyRow = NearbyRow(id: string, placeType: string, name: string, placeId: string,
                                 priceLevel: Option<int>, rating: Option<real>, nRating: Option<int>, loc: string)

  /** sep.join(parts). */
  function Join(parts: seq<string>, sep: string): string
  {
    if parts == [] then "" else if |parts| == 1 then parts[0] else parts[0] + sep + Join(parts[1..], sep)
  }

  /** The row of one kept result: missing fields are NaN, and so is the rating of a place nobody rated. */
  function RowOf(id: string, placeType: string, p: Place): (r: NearbyRow)
    ensures r.rating.None? <==> p.rating.None? || p.ratingsTotal == Some(0)
    ensures r.rating.Some? ==> r.rating == p.rating
  {
    NearbyRow(id, placeType, p.name, p.placeId, p.priceLevel,
              if p.ratingsTotal == Some(0) then None else p.rating, p.ratingsTotal, Join(p.location, ","))
  }

  /** The rows of one json file: the results whose types contain the searched type, in order. */
  function KeptRows(id: string, placeType: string, results: seq<Place>): seq<NearbyRow>
  {
    if results == [] then []
    else
      var rest := KeptRows(id, placeType, results[..|results| - 1]);
      var p := results[|results| - 1];
      if placeType in p.types then rest + [RowOf(id, placeType, p)] else rest
  }

  /** The number of results that mention the searched type. */
  function Matching(placeType: string, results: seq<Place>): nat
  {
    if results == [] then 0 else (if placeType in results[0].types then 1 else 0) + Matching(placeType, results[1..])
  }

  /**
   * The filter keeps exactly the results that mention the searched type:
   * one row each, every row the row of such a result.
   */
  lemma {:induction false} KeptRowsAreMatches(id: string, placeType: string, results: seq<Place>)
    ensures |KeptRows(id, placeType, results)| == Matching(placeType, results)
    ensures forall r :: r in KeptRows(id, placeType, results) ==>
      exists p :: p in results && placeType in p.types && r == RowOf(id, placeType, p)
    decreases |results|
  {
    if results != [] {
      var init := results[..|results| - 1];
      var last := results[|results| - 1];
      KeptRowsAreMatches(id, placeType, init);
      MatchingAppend(placeType, init, last);
      assert results == init + [last];
      forall r | r in KeptRows(id, placeType, results)
        ensures exists p :: p in results && placeType in p.types && r == RowOf(id, placeType, p)
      {
        if r in KeptRows(id, placeType, init) {
          var p :| p in init && placeType in p.types && r == RowOf(id, placeType, p);
          assert p in results;
        } else {
          assert last in results;
        }
      }
    }
  }

  lemma {:induction false} MatchingAppend(placeType: string, results: seq<Place>, p: Place)
    ensures Matching(placeType, results + [p]) == Matching(placeType, results) + (if placeType in p.types then 1 else 0)
    decreases |results|
  {
    if results == [] {
      assert [p][1..] == [];
    } else {
      assert (results + [p])[1..] == results[1..] + [p];
      MatchingAppend(placeType, results[1..], p);
    }
  }

  /**
   * Every matching result has its row, in order: matching result i gives
   * the row at the position counting the matches before it. With the row
   * count being the number of matches, the rows are exactly those.
   */
  lemma {:induction false} KeptRowAt(id: string, placeType: string, results: seq<Place>, i: nat)
    requires i < |results| && placeType in results[i].types
    ensures Matching(placeType, results[..i]) < |KeptRows(id, placeType, results)|
    ensures KeptRows(id, placeType, results)[Matching(placeType, results[..i])] == RowOf(id, placeType, results[i])
    decreases |results|
  {
    var init := results[..|results| - 1];
    var rest := KeptRows(id, placeType, init);
    if i < |results| - 1 {
      KeptRowAt(id, placeType, init, i);
      assert init[..i] == results[..i];
      assert KeptRows(id, placeType, results)[..|rest|] == rest;
    } else {
      KeptRowsAreMatches(id, placeType, init);
      assert init == results[..i];
    }
  }

  /** The rows of one location's sub-directory, place type by place type; a missing file is an error. */
  function FolderRows(folder: Folder, id: string, types: seq<string>): Result<seq<NearbyRow>, NearbyError>
  {
    if types == [] then Success([])
    else
      var before := FolderRows(folder, id, types[..|types| - 1]);
      var t := types[|types| - 1];
      if before.Failure? then before
      else if t !in folder then Failure(MissingJson(id, t))
      else Success(before.value + KeptRows(id, t, folder[t].results))
  }

  /** The rows of the listed sub-directories, in listing order. */
  function CsvRows(folders: map<string, Folder>, listing: seq<string>, types: seq<string>): Result<seq<NearbyRow>, NearbyError>
  {
    if listing == [] then Success([])
    else
      var before := CsvRows(folders, listing[..|listing| - 1], types);
      var id := listing[|listing| - 1];
      var more := FolderRows(if id in folders then folders[id] else map[], id, types);
      if before.Failure? then before
      else if more.Failure? then more
      else Success(before.value + more.value)
  }

  /** A listing of the directory: each sub-directory once. */
  predicate ListingOf<T>(listing: seq<string>, entries: map<string, T>)
  {
    && (forall k :: 0 <= k < |listing| ==> listing[k] in entries)
    && (forall id :: id in entries ==> id in listing)
    && (forall k, l :: 0 <= k < l < |listing| ==> listing[k] != listing[l])
  }

  /**
   * With every file present, the table holds exactly the results that
   * mention their searched type: as many rows as there are such results,
   * each carrying its sub-directory and its type.
   */
  lemma {:induction false} FolderRowsCount(folder: Folder, id: string, types: seq<string>)
    requires forall t :: t in types ==> t in folder
    ensures FolderRows(folder, id, types).Success?
    ensures |FolderRows(folder, id, types).value| == MatchingIn(folder, types)
    ensures forall r :: r in FolderRows(folder, id, types).value ==> r.id == id && r.placeType in types
    decreases |types|
  {
    if types != [] {
      var init := types[..|types| - 1];
      var t := types[|types| - 1];
      FolderRowsCount(folder, id, init);
      KeptRowsAreMatches(id, t, folder[t].results);
      forall r | r in KeptRows(id, t, folder[t].results) ensures r.id == id && r.placeType == t {
        var p :| p in folder[t].results && t in p.types && r == RowOf(id, t, p);
      }
    }
  }

  /** How many results of the folder's files mention the type they were searched for. */
  function MatchingIn(folder: Folder, types: seq<string>): nat
    requires forall t :: t in types ==> t in folder
  {
    if types == [] then 0
    else MatchingIn(folder, types[..|types| - 1]) + Matching(types[|types| - 1], folder[types[|types| - 1]].results)
  }

  /** The loop over the results of one file, growing the columns row by row. */
  method AppendKept(rows: seq<NearbyRow>, id: string, placeType: string, results: seq<Place>) returns (rows': seq<NearbyRow>)
    ensures rows' == rows + KeptRows(id, placeType, results)
  {
    rows' := rows;
    for i := 0 to |results|
      invariant rows' == rows + KeptRows(id, placeType, results[..i])
    {
      assert results[..i + 1][..i] == results[..i];
      if placeType in results[i].types {
        rows' := rows' + [RowOf(id, placeType, results[i])];
      }
    }
    assert results[..|results|] == results;
  }

  // ---------------------------------------------------------------------
  // The directory of json files
  // ---------------------------------------------------------------------

  /**
   * The loop of get_nearby_places over the IDs: make each sub-directory,
   * stop at an ID without a location, search every place type, and stop
   * when a search stalls.
   */
  method SearchIds(folders0: map<string, Folder>, ids: seq<string>, nLocations: nat, types: seq<string>, script: seq<Page>)
    returns (run: NearbyRun)
    ensures run == IdsFrom(folders0, ids, nLocations, types, 0, script, 0)
  {
    var folders := folders0;
    var pos := 0;
    for i := 0 to |ids|
      invariant IdsFrom(folders, ids, nLocations, types, i, script, pos) == IdsFrom(folders0, ids, nLocations, types, 0, script, 0)
    {
      var id := ids[i];
      if id !in folders {
        folders := folders[id := map[]];
      }
      if i >= nLocations {
        return NearbyRun(folders, pos, Some(MissingLocation(i)));
      }
      var p := NearbyStore.SearchTypes(folders[id], types, script, pos);
      folders := folders[id := p.state];
      if p.stalled {
        return NearbyRun(folders, p.pos, Some(Stalled));
      }
      pos := p.pos;
    }
    return NearbyRun(folders, pos, None);
  }

  /** The directory get_nearby_places fills, and the csv files beside it. */
  class NearbyStore {
    var dirExists: bool
    var folders: map<string, Folder>
    var csvFiles: map<string, seq<NearbyRow>>

    ghost predicate Valid()
      reads this
    {
      !dirExists ==> folders == map[]
    }

    constructor(dirExists: bool, folders: map<string, Folder>, csvFiles: map<string, seq<NearbyRow>>)
      requires !dirExists ==> folders == map[]
      ensures Valid()
      ensures this.dirExists == dirExists && this.folders == folders && this.csvFiles == csvFiles
    {
      this.dirExists := dirExists;
      this.folders := folders;
      this.csvFiles := csvFiles;
    }

    /** One place type of one location (the body of the inner loop). */
    static method SearchType(folder: Folder, placeType: string, script: seq<Page>, pos: nat) returns (p: Progress<Folder>)
      ensures p == TypeStep(folder, placeType, script, pos)
    {
      if placeType in folder {
        return Progress(folder, pos, false);
      }
      var first := UseNearbySearch(script, pos, false, 0);
      if first.None? {
        return Progress(folder, pos, true);
      }
      var (page, pos1) := first.value;
      var data := new SearchData(page);
      var pos2 := FetchPages(data, script, pos1);
      if pos2.None? {
        return Progress(folder, pos1, true);
      }
      var written := folder;
      if page.status == Ok || page.status == ZeroResults {
        written := folder[placeType := data.Contents()];
      }
      return Progress(written, pos2.value, false);
    }

    /** The place types of one location. */
    static method SearchTypes(folder: Folder, types: seq<string>, script: seq<Page>, pos: nat) returns (p: Progress<Folder>)
      ensures p == TypesFrom(folder, types, script, pos)
    {
      p := Progress(folder, pos, false);
      var j := 0;
      while j < |types|
        invariant 0 <= j <= |types| && !p.stalled
        invariant TypesFrom(p.state, types[j..], script, p.pos) == TypesFrom(folder, types, script, pos)
      {
        assert types[j..][1..] == types[j + 1..];
        var step := SearchType(p.state, types[j], script, p.pos);
        if step.stalled {
          return step;
        }
        p := step;
        j := j + 1;
      }
    }

    /**
     * get_nearby_places: refuse a place_types that is not a list, make the
     * directory, then search every location for every place type.
     */
    method GetNearbyPlaces(ids: seq<string>, locations: seq<string>, placeTypes: TypesArg, script: seq<Page>)
      returns (error: Option<NearbyError>)
      requires Valid()
      modifies this
      ensures Valid()
      ensures placeTypes.NotAList? ==>
        error == Some(PlaceTypesNotList) && dirExists == old(dirExists) && folders == old(folders) && csvFiles == old(csvFiles)
      ensures !placeTypes.NotAList? ==>
        var run := IdsFrom(old(folders), ids, |locations|, ResolveTypes(placeTypes), 0, script, 0);
        dirExists && folders == run.folders && error == run.error && csvFiles == old(csvFiles)
    {
      if placeTypes.NotAList? {
        return Some(PlaceTypesNotList);
      }
      var types := ResolveTypes(placeTypes);
      dirExists := true;
      var run := SearchIds(folders, ids, |locations|, types, script);
      folders := run.folders;
      error := run.error;
    }

    /**
     * create_csv_nearby_places: an existing file_name is read back and
     * returned; otherwise the listed sub-directories are flattened into
     * rows, which are written to "{directory_name}.csv" whatever file_name
     * was.
     */
    method CreateCsvNearbyPlaces(directoryName: string, types: seq<string>, fileName: Option<string>, listing: seq<string>)
      returns (r: Result<seq<NearbyRow>, NearbyError>)
      requires ListingOf(listing, folders)
      modifies this
      ensures dirExists == old(dirExists) && folders == old(folders)
      ensures var target := if fileName.Some? then fileName.value else directoryName + ".csv";
        if target in old(csvFiles) then r == Success(old(csvFiles)[target]) && csvFiles == old(csvFiles)
        else if !dirExists then r == Failure(NoDirectory) && csvFiles == old(csvFiles)
        else
          && r == CsvRows(folders, listing, types)
          && csvFiles == (if r.Success? then old(csvFiles)[directoryName + ".csv" := r.value] else old(csvFiles))
    {
      var target := if fileName.Some? then fileName.value else directoryName + ".csv";
      if target in csvFiles {
        return Success(csvFiles[target]);
      }
      if !dirExists {
        return Failure(NoDirectory);
      }
      r := FlattenRows(folders, listing, types);
      if r.Success? {
        csvFiles := csvFiles[directoryName + ".csv" := r.value];
      }
    }
  }

  /** The loops of create_csv_nearby_places: the listed sub-directories, then their place types, then the results. */
  method FlattenRows(fs: map<string, Folder>, listing: seq<string>, types: seq<string>) returns (r: Result<seq<NearbyRow>, NearbyError>)
    requires forall k :: 0 <= k < |listing| ==> listing[k] in fs
    ensures r == CsvRows(fs, listing, types)
  {
    var rows: seq<NearbyRow> := [];
    for k := 0 to |listing|
      invariant CsvRows(fs, listing[..k], types) == Success(rows)
    {
      var id := listing[k];
      assert listing[..k + 1][..k] == listing[..k];
      var folderRows: seq<NearbyRow> := [];
      for j := 0 to |types|
        invariant FolderRows(fs[id], id, types[..j]) == Success(folderRows)
      {
        assert types[..j + 1][..j] == types[..j];
        if types[j] !in fs[id] {
          assert FolderRows(fs[id], id, types[..j + 1]).Failure?;
          FolderRowsFailurePersists(fs[id], id, types, j + 1);
          assert types[..|types|] == types;
          CsvRowsFailurePersists(fs, listing, types, k + 1);
          assert listing[..|listing|] == listing;
          return Failure(MissingJson(id, types[j]));
        }
        folderRows := AppendKept(folderRows, id, types[j], fs[id][types[j]].results);
      }
      assert types[..|types|] == types;
      rows := rows + folderRows;
    }
    assert listing[..|listing|] == listing;
    return Success(rows);
  }

  /** Once a file is missing, the error stays the first one found. */
  lemma {:induction false} FolderRowsFailurePersists(folder: Folder, id: string, types: seq<string>, j: nat)
    requires j <= |types| && FolderRows(folder, id, types[..j]).Failure?
    ensures FolderRows(folder, id, types) == FolderRows(folder, id, types[..j])
    decreases |types| - j
  {
    if j < |types| {
      assert types[..j + 1][..j] == types[..j];
      FolderRowsFailurePersists(folder, id, types, j + 1);
    } else {
      assert types[..j] == types;
    }
  }

  lemma {:induction false} CsvRowsFailurePersists(folders: map<string, Folder>, listing: seq<string>, types: seq<string>, k: nat)
    requires k <= |listing| && CsvRows(folders, listing[..k], types).Failure?
    ensures CsvRows(folders, listing, types) == CsvRows(folders, listing[..k], types)
    decreases |listing| - k
  {
    if k < |listing| {
      assert listing[..k + 1][..k] == listing[..k];
      CsvRowsFailurePersists(folders, listing, types, k + 1);
    } else {
      assert listing[..k] == listing;
    }
  }
}
