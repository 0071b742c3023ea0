/**
 * gmap_retrieval/reviews.py: the skip rule of get_reviews and the
 * flattening of saved Place Details responses in create_csv_reviews.
 *
 * A response is a function of the place id (one response per request).
 * The six parallel lists of create_csv_reviews are kept apart, because a
 * review with a missing field leaves them of different lengths.
 */
module Reviews {
  import opened Basics

  /** A review of a Place Details response; None for a missing key. */
  datatype Review = Review(text: Option<string>, rating: Option<int>, time: Option<int>, language: Option<string>)

  /** The "result" of a Place Details response; None for a missing key. */
  datatype Details = Details(placeId: Option<string>, name: Option<string>, reviews: Option<seq<Review>>)

  /** A saved json file: its "result", or None when it has none (an error response). */
  type DetailsJson = Option<Details>

  /** The six lists create_csv_reviews grows. */
  datatype Columns = Columns(placeId: seq<string>, placeName: seq<string>, text: seq<string>,
                             rating: seq<int>, time: seq<int>, language: seq<string>)

  const NoColumns := Columns([], [], [], [], [], [])

  /** A row of the reviews table. */
  datatype ReviewRow = ReviewRow(placeId: string, placeName: string, text: string, rating: int, time: int, language: string)

  datatype ReviewsError =
    | NoDirectory                 // os.listdir of a directory that does not exist
    | MissingResult(file: string) // a json file without "result"
    | RaggedColumns               // the DataFrame of lists of different lengths

  // ---------------------------------------------------------------------
  // create_csv_reviews: the appends
  // ---------------------------------------------------------------------

  /**
   * The appends for one review, in the source's order: place_id, name,
   * text, rating, time, then language (or "na"). A missing key stops the
   * appends where it is met; the flag tells whether all six were made.
   */
  function AddReview(c: Columns, d: Details, r: Review): (Columns, bool)
  {
    if d.placeId.None? then (c, false)
    else
      var c1 := c.(placeId := c.placeId + [d.placeId.value]);
      if d.name.None? then (c1, false)
      else
        var c2 := c1.(placeName := c1.placeName + [d.name.value]);
        if r.text.None? then (c2, false)
        else
          var c3 := c2.(text := c2.text + [r.text.value]);
          if r.rating.None? then (c3, false)
          else
            var c4 := c3.(rating := c3.rating + [r.rating.value]);
            if r.time.None? then (c4, false)
            else
              var c5 := c4.(time := c4.time + [r.time.value]);
              (c5.(language := c5.language + [if r.language.Some? then r.language.value else "na"]), true)
  }

  /** The loop over a place's reviews; the KeyError of a review ends it (and the place). */
  function AddReviews(c: Columns, d: Details, reviews: seq<Review>): Columns
    decreases |reviews|
  {
    if reviews == [] then c
    else
      var (c', complete) := AddReview(c, d, reviews[0]);
      if complete then AddReviews(c', d, reviews[1..]) else c'
  }

  /** One place: a place without "reviews" adds nothing. */
  function AddPlace(c: Columns, d: Details): Columns
  {
    if d.reviews.None? then c else AddReviews(c, d, d.reviews.value)
  }

  /** A hidden directory entry: its name starts with ".". */
  predicate Hidden(entry: string)
  {
    |entry| > 0 && entry[0] == '.'
  }

  /** The loop over the directory's entries: hidden ones are skipped, a file without "result" is an error. */
  function ColumnsFrom(c: Columns, files: map<string, DetailsJson>, listing: seq<string>): Result<Columns, ReviewsError>
    decreases |listing|
  {
    if listing == [] then Success(c)
    else if Hidden(listing[0]) then ColumnsFrom(c, files, listing[1..])
    else if listing[0] !in files || files[listing[0]].None? then Failure(MissingResult(listing[0]))
    else ColumnsFrom(AddPlace(c, files[listing[0]].value), files, listing[1..])
  }

  /** pd.DataFrame of the six lists: rows when they have one length, a ValueError otherwise. */
  function Frame(c: Columns): Result<seq<ReviewRow>, ReviewsError>
  {
    var n := |c.placeId|;
    if |c.placeName| == n && |c.text| == n && |c.rating| == n && |c.time| == n && |c.language| == n then
      Success(seq(n, k requires 0 <= k < n => ReviewRow(c.placeId[k], c.placeName[k], c.text[k], c.rating[k], c.time[k], c.language[k])))
    else Failure(RaggedColumns)
  }

  // ---------------------------------------------------------------------
  // What the flattening promises
  // ---------------------------------------------------------------------

  /** A review with the keys the table needs. */
  predicate CompleteReview(r: Review)
  {
    r.text.Some? && r.rating.Some? && r.time.Some?
  }

  predicate AllComplete(reviews: seq<Review>)
  {
    forall k :: 0 <= k < |reviews| ==> CompleteReview(reviews[k])
  }

  /** A place with the keys the table needs, all its reviews complete. */
  predicate CompletePlace(d: Details)
  {
    d.placeId.Some? && d.name.Some? && (d.reviews.Some? ==> AllComplete(d.reviews.value))
  }

  /** The rows a complete place stands for: one per review, each with the place's id and name, language "na" when missing. */
  function PlaceRows(d: Details): seq<ReviewRow>
    requires CompletePlace(d)
  {
    if d.reviews.None? then []
    else
      var rs := d.reviews.value;
      seq(|rs|, k requires 0 <= k < |rs| =>
        ReviewRow(d.placeId.value, d.name.value, rs[k].text.value, rs[k].rating.value, rs[k].time.value,
                  if rs[k].language.Some? then rs[k].language.value else "na"))
  }

  predicate Aligned(c: Columns)
  {
    Frame(c).Success?
  }

  lemma AddCompleteReview(c: Columns, d: Details, r: Review)
    requires Aligned(c) && d.placeId.Some? && d.name.Some? && CompleteReview(r)
    ensures AddReview(c, d, r).1 && Aligned(AddReview(c, d, r).0)
    ensures Frame(AddReview(c, d, r).0).value
         == Frame(c).value + [ReviewRow(d.placeId.value, d.name.value, r.text.value, r.rating.value, r.time.value,
                                        if r.language.Some? then r.language.value else "na")]
  {
  }

  lemma {:induction false} AddCompleteReviews(c: Columns, d: Details, reviews: seq<Review>)
    requires Aligned(c) && d.placeId.Some? && d.name.Some? && AllComplete(reviews)
    ensures Aligned(AddReviews(c, d, reviews))
    ensures Frame(AddReviews(c, d, reviews)).value
         == Frame(c).value + PlaceRows(Details(d.placeId, d.name, Some(reviews)))
    decreases |reviews|
  {
    if reviews != [] {
      AddCompleteReview(c, d, reviews[0]);
      var c' := AddReview(c, d, reviews[0]).0;
      assert AllComplete(reviews[1..]);
      assert AddReviews(c, d, reviews) == AddReviews(c', d, reviews[1..]);
      AddCompleteReviews(c', d, reviews[1..]);
      PlaceRowsSplit(d, reviews, Frame(c).value);
    }
  }

  /** The rows of a place's reviews are those of its first review, then those of the rest. */
  lemma PlaceRowsSplit(d: Details, reviews: seq<Review>, before: seq<ReviewRow>)
    requires d.placeId.Some? && d.name.Some? && AllComplete(reviews) && reviews != []
    ensures var rows := PlaceRows(Details(d.placeId, d.name, Some(reviews)));
      (before + [rows[0]]) + PlaceRows(Details(d.placeId, d.name, Some(reviews[1..]))) == before + rows
  {
    var rows := PlaceRows(Details(d.placeId, d.name, Some(reviews)));
    var rest := PlaceRows(Details(d.placeId, d.name, Some(reviews[1..])));
    assert rows == [rows[0]] + rest;
  }

  /**
   * For complete places the six lists stay aligned: a place adds exactly
   * one row per review, carrying its place_id and name, and a place
   * without reviews adds none.
   */
  lemma AddCompletePlace(c: Columns, d: Details)
    requires Aligned(c) && CompletePlace(d)
    ensures Aligned(AddPlace(c, d)) && Frame(AddPlace(c, d)).value == Frame(c).value + PlaceRows(d)
  {
    if d.reviews.Some? {
      AddCompleteReviews(c, d, d.reviews.value);
    }
  }

  /** A place without "reviews" contributes no rows, whatever else the file holds. */
  lemma PlaceWithoutReviewsAddsNothing(c: Columns, files: map<string, DetailsJson>, entry: string, rest: seq<string>)
    requires !Hidden(entry) && entry in files && files[entry].Some? && files[entry].value.reviews.None?
    ensures ColumnsFrom(c, files, [entry] + rest) == ColumnsFrom(c, files, rest)
  {
    assert ([entry] + rest)[1..] == rest;
  }

  /** The visible entries of a listing, in order. */
  function Visible(listing: seq<string>): seq<string>
  {
    if listing == [] then [] else (if Hidden(listing[0]) then [] else [listing[0]]) + Visible(listing[1..])
  }

  /** Hidden entries make no difference: the result is that of the visible entries alone. */
  lemma {:induction false} HiddenEntriesIgnored(c: Columns, files: map<string, DetailsJson>, listing: seq<string>)
    ensures ColumnsFrom(c, files, listing) == ColumnsFrom(c, files, Visible(listing))
    decreases |listing|
  {
    if listing != [] {
      var rest := Visible(listing[1..]);
      if Hidden(listing[0]) {
        assert Visible(listing) == rest;
        HiddenEntriesIgnored(c, files, listing[1..]);
      } else {
        assert Visible(listing) == [listing[0]] + rest;
        assert Visible(listing)[1..] == rest;
        if listing[0] in files && files[listing[0]].Some? {
          HiddenEntriesIgnored(AddPlace(c, files[listing[0]].value), files, listing[1..]);
        }
      }
    }
  }

  /** The rows of complete places, one file after the other. */
  function ListedRows(files: map<string, DetailsJson>, listing: seq<string>): seq<ReviewRow>
    requires forall e :: e in listing && !Hidden(e) ==> e in files && files[e].Some? && CompletePlace(files[e].value)
    decreases |listing|
  {
    if listing == [] then []
    else if Hidden(listing[0]) then ListedRows(files, listing[1..])
    else PlaceRows(files[listing[0]].value) + ListedRows(files, listing[1..])
  }

  /** When every visible file holds a complete place, the table is one row per review, file after file. */
  lemma {:induction false} CompletePlacesTable(c: Columns, files: map<string, DetailsJson>, listing: seq<string>)
    requires Aligned(c)
    requires forall e :: e in listing && !Hidden(e) ==> e in files && files[e].Some? && CompletePlace(files[e].value)
    ensures ColumnsFrom(c, files, listing).Success?
    ensures Aligned(ColumnsFrom(c, files, listing).value)
    ensures Frame(ColumnsFrom(c, files, listing).value).value == Frame(c).value + ListedRows(files, listing)
    decreases |listing|
  {
    if listing != [] {
      assert forall e :: e in listing[1..] ==> e in listing;
      if Hidden(listing[0]) {
        CompletePlacesTable(c, files, listing[1..]);
      } else {
        var d := files[listing[0]].value;
        var c' := AddPlace(c, d);
        AddCompletePlace(c, d);
        CompletePlacesTable(c', files, listing[1..]);
        assert ColumnsFrom(c, files, listing) == ColumnsFrom(c', files, listing[1..]);
        assert ListedRows(files, listing) == PlaceRows(d) + ListedRows(files, listing[1..]);
      }
    }
  }

  /**
   * The entries of os.listdir: every saved file is listed, and no entry
   * twice (hidden and other entries may be listed besides).
   */
  predicate ListsEachFile(listing: seq<string>, files: map<string, DetailsJson>)
  {
    && (forall name :: name in files ==> name in listing)
    && (forall k, l :: 0 <= k < l < |listing| ==> listing[k] != listing[l])
  }

  /** Every review of a visible saved place reaches the table when all listed places are complete. */
  lemma {:induction false} SavedPlaceRowsListed(files: map<string, DetailsJson>, listing: seq<string>, name: string)
    requires forall e :: e in listing && !Hidden(e) ==> e in files && files[e].Some? && CompletePlace(files[e].value)
    requires name in listing && !Hidden(name)
    ensures forall row :: row in PlaceRows(files[name].value) ==> row in ListedRows(files, listing)
    decreases |listing|
  {
    assert forall e :: e in listing[1..] ==> e in listing;
    if listing[0] == name {
      assert ListedRows(files, listing) == PlaceRows(files[name].value) + ListedRows(files, listing[1..]);
    } else {
      assert name in listing[1..];
      SavedPlaceRowsListed(files, listing[1..], name);
      if !Hidden(listing[0]) {
        assert ListedRows(files, listing) == PlaceRows(files[listing[0]].value) + ListedRows(files, listing[1..]);
      }
    }
  }

  /**
   * A review without "text" after the place's id and name were appended
   * leaves the lists of different lengths, and the DataFrame is refused.
   */
  lemma ReviewWithoutTextIsRagged()
    ensures var d := Details(Some("p"), Some("n"), Some([Review(None, Some(5), Some(1), None)]));
      ColumnsFrom(NoColumns, map["p.json" := Some(d)], ["p.json"]) == Success(Columns(["p"], ["n"], [], [], [], []))
      && Frame(Columns(["p"], ["n"], [], [], [], [])) == Failure(RaggedColumns)
  {
    var d := Details(Some("p"), Some("n"), Some([Review(None, Some(5), Some(1), None)]));
    assert !Hidden("p.json");
    assert AddPlace(NoColumns, d) == Columns(["p"], ["n"], [], [], [], []);
  }

  /**
   * The six lists, longest first: each review appends a prefix of
   * place_id, name, text, rating, time, language, so a list is never
   * longer than the one appended before it.
   */
  predicate Descending(c: Columns)
  {
    |c.placeId| >= |c.placeName| >= |c.text| >= |c.rating| >= |c.time| >= |c.language|
  }

  /** The place_id entries that have no language entry beside them. */
  function Lag(c: Columns): int
  {
    |c.placeId| - |c.language|
  }

  /** The DataFrame accepts the lists exactly when they are in order and none lags. */
  lemma AlignedIsLevel(c: Columns)
    ensures Aligned(c) <==> Descending(c) && Lag(c) == 0
  {
  }

  /**
   * One review keeps the lists in order and never reduces the lag; the
   * appends are complete exactly when the place has an id and a name and
   * the review has text, rating and time, and a review stopped after the
   * place's id was appended adds to the lag.
   */
  lemma AddReviewDescends(c: Columns, d: Details, r: Review)
    requires Descending(c)
    ensures Descending(AddReview(c, d, r).0) && Lag(AddReview(c, d, r).0) >= Lag(c)
    ensures AddReview(c, d, r).1 <==> d.placeId.Some? && d.name.Some? && CompleteReview(r)
    ensures d.placeId.Some? && !AddReview(c, d, r).1 ==> Lag(AddReview(c, d, r).0) > Lag(c)
  {
  }

  /** A place whose review loop breaks on a KeyError after its place_id was appended. */
  predicate BreaksAfterId(d: Details)
  {
    d.placeId.Some? && d.reviews.Some? && d.reviews.value != []
    && (d.name.None? || !AllComplete(d.reviews.value))
  }

  lemma {:induction false} AddReviewsDescends(c: Columns, d: Details, reviews: seq<Review>)
    requires Descending(c)
    ensures Descending(AddReviews(c, d, reviews)) && Lag(AddReviews(c, d, reviews)) >= Lag(c)
    ensures BreaksAfterId(Details(d.placeId, d.name, Some(reviews))) ==> Lag(AddReviews(c, d, reviews)) > Lag(c)
    decreases |reviews|
  {
    if reviews != [] {
      AddReviewDescends(c, d, reviews[0]);
      var (c', complete) := AddReview(c, d, reviews[0]);
      if complete {
        AddReviewsDescends(c', d, reviews[1..]);
        if BreaksAfterId(Details(d.placeId, d.name, Some(reviews))) {
          var k :| 0 <= k < |reviews| && !CompleteReview(reviews[k]);
          assert reviews[1..][k - 1] == reviews[k];
        }
      }
    }
  }

  /** The remaining files keep the lists in order and never reduce the lag. */
  lemma {:induction false} ColumnsFromDescends(c: Columns, files: map<string, DetailsJson>, listing: seq<string>)
    requires Descending(c)
    ensures ColumnsFrom(c, files, listing).Success? ==>
      Descending(ColumnsFrom(c, files, listing).value) && Lag(ColumnsFrom(c, files, listing).value) >= Lag(c)
    decreases |listing|
  {
    if listing != [] && !Hidden(listing[0]) && listing[0] in files && files[listing[0]].Some? {
      var d := files[listing[0]].value;
      if d.reviews.Some? {
        AddReviewsDescends(c, d, d.reviews.value);
      }
      ColumnsFromDescends(AddPlace(c, d), files, listing[1..]);
    } else if listing != [] {
      ColumnsFromDescends(c, files, listing[1..]);
    }
  }

  /**
   * One visible file whose review loop breaks after its place_id was
   * appended (a missing name, or a review without text, rating or time)
   * makes the whole table fail: either an error comes first, or the lists
   * reach the DataFrame with different lengths.
   */
  lemma {:induction false} BrokenPlaceIsRagged(c: Columns, files: map<string, DetailsJson>, listing: seq<string>, i: nat)
    requires Descending(c)
    requires i < |listing| && !Hidden(listing[i]) && listing[i] in files && files[listing[i]].Some?
    requires BreaksAfterId(files[listing[i]].value)
    ensures ColumnsFrom(c, files, listing).Failure? || Frame(ColumnsFrom(c, files, listing).value) == Failure(RaggedColumns)
    decreases |listing|
  {
    if Hidden(listing[0]) {
      BrokenPlaceIsRagged(c, files, listing[1..], i - 1);
    } else if listing[0] in files && files[listing[0]].Some? {
      var d := files[listing[0]].value;
      if d.reviews.Some? {
        AddReviewsDescends(c, d, d.reviews.value);
      }
      var c' := AddPlace(c, d);
      if i == 0 {
        ColumnsFromDescends(c', files, listing[1..]);
        if ColumnsFrom(c', files, listing[1..]).Success? {
          AlignedIsLevel(ColumnsFrom(c', files, listing[1..]).value);
        }
      } else {
        BrokenPlaceIsRagged(c', files, listing[1..], i - 1);
      }
    }
  }

  // ---------------------------------------------------------------------
  // The directory of json files
  // ---------------------------------------------------------------------

  /** The file get_reviews writes for a place id. */
  function FileOf(placeId: string): string
  {
    placeId + ".json"
  }

  /** get_reviews over the ids: an existing file is skipped; otherwise the response is written, whatever it holds. */
  function Fetched(files: map<string, DetailsJson>, ids: seq<string>, respond: string -> DetailsJson): map<string, DetailsJson>
    decreases |ids|
  {
    if ids == [] then files
    else
      var name := FileOf(ids[0]);
      Fetched(if name in files then files else files[name := respond(ids[0])], ids[1..], respond)
  }

  /**
   * Existing files are never replaced, every id ends up with its file, a
   * new file holds the response for its id, and no other file appears.
   */
  lemma {:induction false} FetchedFiles(files: map<string, DetailsJson>, ids: seq<string>, respond: string -> DetailsJson)
    ensures var after := Fetched(files, ids, respond);
      && (forall name :: name in files ==> name in after && after[name] == files[name])
      && (forall i :: 0 <= i < |ids| ==> FileOf(ids[i]) in after)
      && (forall id :: FileOf(id) in after && FileOf(id) !in files ==> after[FileOf(id)] == respond(id))
      && (forall name :: name in after && name !in files ==> exists i :: 0 <= i < |ids| && name == FileOf(ids[i]))
    decreases |ids|
  {
    if ids != [] {
      var name := FileOf(ids[0]);
      var files' := if name in files then files else files[name := respond(ids[0])];
      FetchedFiles(files', ids[1..], respond);
      var after := Fetched(files, ids, respond);
      forall i | 0 <= i < |ids| ensures FileOf(ids[i]) in after {
        if i > 0 {
          assert ids[i] == ids[1..][i - 1];
        }
      }
      forall id | FileOf(id) in after && FileOf(id) !in files ensures after[FileOf(id)] == respond(id) {
        if FileOf(id) == name {
          assert id == ids[0] by {
            assert id == FileOf(id)[..|FileOf(id)| - 5];
            assert ids[0] == name[..|name| - 5];
          }
        }
      }
      forall n | n in after && n !in files ensures exists i :: 0 <= i < |ids| && n == FileOf(ids[i]) {
        if n == name {
          assert n == FileOf(ids[0]);
        } else {
          var i :| 0 <= i < |ids[1..]| && n == FileOf(ids[1..][i]);
          assert n == FileOf(ids[i + 1]);
        }
      }
    }
  }

  /** The directory get_reviews fills, and the csv files beside it. */
  class ReviewStore {
    var dirExists: bool
    var files: map<string, DetailsJson>
    var csvFiles: map<string, seq<ReviewRow>>

    ghost predicate Valid()
      reads this
    {
      !dirExists ==> files == map[]
    }

    constructor(dirExists: bool, files: map<string, DetailsJson>, csvFiles: map<string, seq<ReviewRow>>)
      requires !dirExists ==> files == map[]
      ensures Valid()
      ensures this.dirExists == dirExists && this.files == files && this.csvFiles == csvFiles
    {
      this.dirExists := dirExists;
      this.files := files;
      this.csvFiles := csvFiles;
    }

    /** get_reviews: make the directory, then request and save every place id without a file. */
    method GetReviews(ids: seq<string>, respond: string -> DetailsJson)
      requires Valid()
      modifies this
      ensures Valid() && dirExists
      ensures files == Fetched(old(files), ids, respond) && csvFiles == old(csvFiles)
    {
      dirExists := true;
      for i := 0 to |ids|
        invariant dirExists && csvFiles == old(csvFiles)
        invariant Fetched(files, ids[i..], respond) == Fetched(old(files), ids, respond)
      {
        assert ids[i..][1..] == ids[i + 1..];
        var name := FileOf(ids[i]);
        if name !in files {
          files := files[name := respond(ids[i])];
        }
      }
      assert ids[|ids|..] == [];
    }

    /**
     * create_csv_reviews: nothing is done when file_name exists (None is
     * returned); otherwise the visible files are flattened and the table
     * is written to "{directory_name}.csv" whatever file_name was.
     */
    method CreateCsvReviews(directoryName: string, fileName: Option<string>, listing: seq<string>)
      returns (r: Result<Option<seq<ReviewRow>>, ReviewsError>)
      requires ListsEachFile(listing, files)
      modifies this
      ensures dirExists == old(dirExists) && files == old(files)
      ensures var target := if fileName.Some? then fileName.value else directoryName + ".csv";
        if target in old(csvFiles) then r == Success(None) && csvFiles == old(csvFiles)
        else if !dirExists then r == Failure(NoDirectory) && csvFiles == old(csvFiles)
        else
          var table := match ColumnsFrom(NoColumns, files, listing)
                       case Failure(e) => Failure(e)
                       case Success(c) => Frame(c);
          && (table.Failure? ==> r == Failure(table.error) && csvFiles == old(csvFiles))
          && (table.Success? ==> r == Success(Some(table.value))
                                 && csvFiles == old(csvFiles)[directoryName + ".csv" := table.value])
    {
      var target := if fileName.Some? then fileName.value else directoryName + ".csv";
      if target in csvFiles {
        return Success(None);
      }
      if !dirExists {
        return Failure(NoDirectory);
      }
      var columns := Flatten(files, listing);
      if columns.Failure? {
        return Failure(columns.error);
      }
      var table := Frame(columns.value);
      if table.Failure? {
        return Failure(table.error);
      }
      csvFiles := csvFiles[directoryName + ".csv" := table.value];
      return Success(Some(table.value));
    }
  }

  /** The loop over one place's reviews, appending to the six lists. */
  method AppendReviews(c: Columns, d: Details, reviews: seq<Review>) returns (c': Columns)
    ensures c' == AddReviews(c, d, reviews)
  {
    c' := c;
    var i := 0;
    while i < |reviews|
      invariant 0 <= i <= |reviews|
      invariant AddReviews(c', d, reviews[i..]) == AddReviews(c, d, reviews)
    {
      assert reviews[i..][1..] == reviews[i + 1..];
      var (next, complete) := AddReview(c', d, reviews[i]);
      c' := next;
      if !complete {
        return;
      }
      i := i + 1;
    }
  }

  /** The loop over the directory's entries. */
  method Flatten(files: map<string, DetailsJson>, listing: seq<string>) returns (r: Result<Columns, ReviewsError>)
    ensures r == ColumnsFrom(NoColumns, files, listing)
  {
    var c := NoColumns;
    for k := 0 to |listing|
      invariant ColumnsFrom(c, files, listing[k..]) == ColumnsFrom(NoColumns, files, listing)
    {
      assert listing[k..][1..] == listing[k + 1..];
      var entry := listing[k];
      if Hidden(entry) {
        continue;
      }
      if entry !in files || files[entry].None? {
        return Failure(MissingResult(entry));
      }
      var d := files[entry].value;
      if d.reviews.Some? {
        c := AppendReviews(c, d, d.reviews.value);
      }
    }
    assert listing[|listing|..] == [];
    return Success(c);
  }
}
