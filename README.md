# gmap_retrieval in Dafny

This project is a verified model of the bookkeeping in the Python package
`gmap_retrieval`. The package downloads Google Maps data for a list of
locations into directories:

- **street_view:** Street View images around a location.
- **satellite:** one satellite image per location.
- **nearby_places:** Nearby Search results per place type.
- **reviews:** Place Details reviews.
- **cost_analysis:** estimates the cost of all those requests.

The model covers the logic that decides what is requested, what is skipped,
what is written where, and what the tables and cost figures hold. HTTP
calls, random draws and directory listings are inputs: each is a sequence
or a function that the caller supplies.

One Dafny module models each source file:

| file | module | models |
|---|---|---|
| `street_view.dfy` | `StreetView` | `get_lat_lon` argument checks and broadcasting; `is_gsv_available` limit scan; the per-ID resume rule, sampling loop, image naming and `loc.csv` journal of `get_street_view_image` |
| `satellite.dfy` | `Satellite` | `find_zoom_level`; the skip rule and `image_coverage.csv` rows of `get_satellite_image` |
| `cost_analysis.dfy` | `CostAnalysis` | `calculate_cost` tiers and prices; `get_n_api_calls` argument checks and request counts |
| `nearby_places.dfy` | `NearbyPlaces` | `use_nearby_search` retries; `concat_next_page`; the page loop, skip and write rules of `get_nearby_places`; `create_csv_nearby_places` |
| `reviews.dfy` | `Reviews` | the skip rule of `get_reviews`; the flattening in `create_csv_reviews` |
| `basics.dfy` | `Basics` | `Option`, `Result`, and sums of reals |
| `place_types.dfy` | `PlaceTypes` | the 97 default place types |

Directory contents are class fields that the methods update:

- a map from a file to its contents;
- a map from a sub-directory to its files;
- the csv files already written.

Each method is proved against a function of the old state. Lemmas then state
what those functions promise.

## Model

| member | source | states |
|---|---|---|
| StreetView.Build | gmap_retrieval/street_view.py:123-133 | Succeeds exactly when there is at least one offset and every offset passes the distance check, the direction check and the location parse; on success, one request per position with that position's location, distance and direction |
| StreetView.GetLatLon | gmap_retrieval/street_view.py:97-131 | Corrected get_lat_lon: succeeds exactly when the shapes agree, there is at least one distance, and every broadcast position is admissible; position i then pairs the i-th (or the only) location, distance and direction |
| StreetView.GetLatLonAsWritten | gmap_retrieval/street_view.py:97-131 | As written: it only succeeds when `d` is array-like, and for array-like `d` it agrees with GetLatLon |
| StreetView.ScalarCallRejected | gmap_retrieval/street_view.py:113-131 | An all-scalar admissible call gives one offset in the corrected function, but the as-written function rejects it because the location string is iterated character by character |
| StreetView.Availability | gmap_retrieval/street_view.py:197-214 | One flag per location, and a True flag only where the status was "OK" |
| StreetView.IsGsvAvailable | gmap_retrieval/street_view.py:183-214 | The loop's result is Availability of the statuses, with the limit defaulting to the number of locations |
| StreetView.AvailabilityUnlimited | gmap_retrieval/street_view.py:183-184 | With no limit, or a limit of at least the number of locations, flag i is exactly "status i is OK" |
| StreetView.AvailabilityStopsAtLimit | gmap_retrieval/street_view.py:199-213 | For a positive limit, flag i is True exactly when status i is "OK" and fewer than `limit` True flags come before it |
| StreetView.AvailabilityCount | gmap_retrieval/street_view.py:199-213 | For a positive limit, the number of True flags is min(number of "OK" statuses, limit) |
| StreetView.CandidateCount | gmap_retrieval/street_view.py:339-343 | int(n_images * 1.5) is at least n_images, and is positive exactly when n_images is |
| StreetView.Keep | gmap_retrieval/street_view.py:350 | Boolean-mask selection keeps as many entries as there are True flags, and each kept entry comes from a True position |
| StreetView.KeepAt | gmap_retrieval/street_view.py:350 | Every entry with a True flag is kept, in order: entry i sits at the position counting the True flags before it |
| StreetView.RoundHits | gmap_retrieval/street_view.py:339-350 | A round succeeds only for n_images >= 1, keeps at most n_images locations, and each kept location is the destination of a candidate whose status was "OK" |
| StreetView.PySliceTo | gmap_retrieval/street_view.py:356 | Python's `s[:n]` is a prefix of s: of length min(n, len(s)) for n >= 0, and shorter than s by min(-n, len(s)) for a negative n |
| StreetView.BudgetBound | gmap_retrieval/street_view.py:360-369 | The trial budget ends the loop within MaxRounds(limit) rounds |
| StreetView.RoundResultAt | gmap_retrieval/street_view.py:336-350 | Round k's result is RoundHits of round k's draws and answers |
| StreetView.SampleFrom | gmap_retrieval/street_view.py:336-370 | A sample ends within MaxRounds and holds at most n_images locations. When complete it holds n_needed locations. When incomplete it holds fewer, and the trial budget was spent |
| StreetView.SampleRound | gmap_retrieval/street_view.py:339-350 | One round yields RoundHits: the destinations of the candidates whose metadata status is "OK", at most n_images of them, in draw order |
| StreetView.SampleValidLocations | gmap_retrieval/street_view.py:336-370 | The `while True` loop returns SampleFrom of the rounds' results |
| StreetView.OnlyLastRoundCounts | gmap_retrieval/street_view.py:350-358 | As written at line 352, hits are not accumulated: the sample is the last round's hits, cut to n_needed when that round had enough |
| StreetView.OverfullStillFetches | gmap_retrieval/street_view.py:324-356 | When the folder already holds more png files than n_images, the first round ends the loop, and its hits minus the surplus are still fetched |
| StreetView.FirstUnusedFrom | gmap_retrieval/street_view.py:408-414 | The name search stops at the first unused index at or after j; every index before it is taken |
| StreetView.SaveFresh | gmap_retrieval/street_view.py:405-426 | One new file per location, each under a name that did not exist, with strictly increasing indices; existing files are unchanged |
| StreetView.NextUnused | gmap_retrieval/street_view.py:408-414 | The name search stops at the first index from j on whose image file does not exist |
| StreetView.SaveAll | gmap_retrieval/street_view.py:405-426 | The naming-and-saving loop ends with the folder and the file indices that Save describes |
| StreetView.SaveBytes | gmap_retrieval/street_view.py:416-426 | The i-th new file holds the bytes downloaded for the i-th location |
| StreetView.SaveOnlyNew | gmap_retrieval/street_view.py:405-426 | Saving adds nothing besides the named images |
| StreetView.SavePngCount | gmap_retrieval/street_view.py:405-426 | Each saved location adds exactly one png file |
| StreetView.StoreJournal | gmap_retrieval/street_view.py:430-439 | loc.csv becomes its old rows (or a header if it did not exist) followed by one row per new image, naming its file and its location |
| StreetView.StoreNaming | gmap_retrieval/street_view.py:405-426 | Each new image gets a fresh, increasing name and the bytes of its own request |
| StreetView.StoreKeepsOthers | gmap_retrieval/street_view.py:405-439 | No existing file other than loc.csv changes; nothing but new images and loc.csv appears |
| StreetView.StorePngCount | gmap_retrieval/street_view.py:405-426 | Storing adds one png file per location |
| StreetView.CollectResumes | gmap_retrieval/street_view.py:316-332 | The ID is skipped exactly when its sub-directory exists with n_images png files. Otherwise the sub-directory is created if needed, and n_images minus the existing count is sampled and stored |
| StreetView.CollectTouchesOnlyItsFolder | gmap_retrieval/street_view.py:310-320 | One ID's job adds only its own sub-directory and changes no other |
| StreetView.CollectFillsFolder | gmap_retrieval/street_view.py:319-358 | When sampling found enough locations, the sub-directory ends with exactly n_images png files |
| StreetView.StreetViewStore.SaveImages | gmap_retrieval/street_view.py:405-426 | The naming-and-saving loop leaves the sub-directory as Save describes and returns the new indices |
| StreetView.StreetViewStore.WriteJournal | gmap_retrieval/street_view.py:430-439 | loc.csv is appended to if it exists, otherwise created with a header |
| StreetView.StreetViewStore.FetchForId | gmap_retrieval/street_view.py:332-439 | Outcome and sub-directories are Fetch's: a failed sample changes nothing; otherwise the sample's images and loc.csv rows are stored in the ID's sub-directory |
| StreetView.StreetViewStore.CollectForId | gmap_retrieval/street_view.py:310-439 | Outcome and directories are those of Collect |
| StreetView.StreetViewStore.GetStreetViewImage | gmap_retrieval/street_view.py:283-289 | IDs and locations of different lengths give a ValueError with nothing changed; otherwise the directory exists and each ID's job runs in order |
| StreetView.Headings | gmap_retrieval/street_view.py:250-255 | The intended headings: one per sampled location; none for -2, the i-th draw for -1, the given heading for any other value |
| StreetView.DefaultHeadingsAgree | gmap_retrieval/street_view.py:380-385 | For -1 and -2 the program builds one URL per location with the intended heading |
| StreetView.DegreesHeadingFails | gmap_retrieval/street_view.py:386-387 | A heading in degrees raises TypeError for any number of locations, where one request per location is intended |
| StreetView.TextHeadingReachesFirstOnly | gmap_retrieval/street_view.py:386-387 | A str heading reaches the first URL only; every other URL is NaN, and with no location there is one NaN URL |
| Satellite.Coverage | gmap_retrieval/satellite.py:38-39 | The coverage is positive for a positive cosine and size |
| Satellite.CoverageFormula | gmap_retrieval/satellite.py:38-39 | Coverage equals 156543.03392 * cos / 2^zoom * size / 1000 |
| Satellite.CoverageDecreases | gmap_retrieval/satellite.py:37-40 | Coverage strictly decreases as the zoom grows |
| Satellite.FirstFit | gmap_retrieval/satellite.py:37-45 | The first zoom whose coverage does not exceed the ideal; every zoom before it covers too much |
| Satellite.BestZoom | gmap_retrieval/satellite.py:46-51 | The chosen zoom is the first fit or the one before it |
| Satellite.BestZoomIsClosest | gmap_retrieval/satellite.py:40-51 | No zoom from 0 to 21 has a coverage closer to the ideal, as a factor, than the chosen one |
| Satellite.TieGoesToFinerZoom | gmap_retrieval/satellite.py:46-47 | On equal ratios, the zoom whose coverage does not exceed the ideal is chosen |
| Satellite.ScanFrom | gmap_retrieval/satellite.py:37-45 | The inner loop stops at a zoom from 0 to 21, with that zoom's coverage |
| Satellite.DecideBracketed | gmap_retrieval/satellite.py:36-51 | For a bracketed latitude the stored zoom and coverage are BestZoom's, whatever the previous latitude left in the loop variables |
| Satellite.FindZoomLevelsBracketed | gmap_retrieval/satellite.py:30-53 | When every latitude is bracketed, index i holds BestZoom of latitude i and its coverage, whatever the sort order |
| Satellite.ScanZooms | gmap_retrieval/satellite.py:37-45 | The inner loop's zoom, coverage and updated variables are ScanFrom's |
| Satellite.FindZoomLevel | gmap_retrieval/satellite.py:30-53 | The sorted outer loop's result is FindZoomLevels |
| Satellite.FirstUnbracketedFails | gmap_retrieval/satellite.py:41-46 | A first latitude where zoom 0 already fits, or zoom 21 still covers too much, reads an unbound variable |
| Satellite.ScanNeverFits | gmap_retrieval/satellite.py:44 | When no zoom fits, `ratio` is never assigned |
| Satellite.FetchKeys | gmap_retrieval/satellite.py:105-122 | After the loop the directory holds the old images plus one per ID seen |
| Satellite.FetchKeepsExisting | gmap_retrieval/satellite.py:109-110 | An existing png is never replaced |
| Satellite.FetchSkipsExisting | gmap_retrieval/satellite.py:109-110 | ID i is skipped exactly when its png existed before or an earlier occurrence of the same ID wrote it |
| Satellite.FetchWritesDownload | gmap_retrieval/satellite.py:111-122 | An ID not skipped holds the bytes downloaded at its zoom |
| Satellite.FetchKeysGrow | gmap_retrieval/satellite.py:105-122 | A written png stays unchanged through later IDs |
| Satellite.RepeatCopies | gmap_retrieval/satellite.py:157 | Python's `str * int`: max(n, 0) back-to-back copies, so the length is max(n, 0) times the text's and character i is the text's character i mod its length |
| Satellite.CoverageRows | gmap_retrieval/satellite.py:156-160 | Corrected rows: as many as there are downloaded IDs, each with an ID and a coverage |
| Satellite.CoverageRowsAt | gmap_retrieval/satellite.py:156-160 | Corrected rows: downloaded ID i has the row at the position counting the downloads before it, with its own ID and its own coverage, so the rows are exactly the downloads in order and a skipped ID has none |
| Satellite.AsWrittenIdsDownloaded | gmap_retrieval/satellite.py:156-160 | As written: every ID cell of the written rows names a downloaded ID |
| Satellite.TextsAsWritten | gmap_retrieval/satellite.py:156-158 | As written: one coverage text per downloaded ID |
| Satellite.SkippedRowMisaligned | gmap_retrieval/satellite.py:156-160 | With the first ID skipped and the second downloaded, the written rows pair the coverage with no ID and the ID with no coverage; the corrected rows pair them |
| Satellite.VerticalRepeatsText | gmap_retrieval/satellite.py:157 | With image_ratio 2, a 2.0 km coverage is written "2.0x2.02.0"; the intended text is "2.0x4.0" |
| Satellite.AsWrittenAgreesWhenSkipsTrail | gmap_retrieval/satellite.py:156-160 | With image_ratio 1 and only trailing skipped IDs, the written rows are the intended ones |
| Satellite.JournalAppends | gmap_retrieval/satellite.py:141-167 | image_coverage.csv exists afterwards and ends with the new rows: an existing directory keeps the old csv as a prefix with no new header, a new directory gets the header followed by the rows |
| Satellite.SatelliteStore.FetchImages | gmap_retrieval/satellite.py:148-153 | The download loop's directory and skip flags are Fetch's; a missing zoom is reported |
| Satellite.SatelliteStore.GetSatelliteImage | gmap_retrieval/satellite.py:124-167 | A zoom error changes nothing. Otherwise the directory exists and holds Fetch's images. More IDs than locations is a KeyError. Fewer is a mask-length error. Equal lengths append the corrected coverage rows |
| CostAnalysis.Pos | gmap_retrieval/cost_analysis.py:140 | np.maximum(x, 0) is x or 0, and at least both |
| CostAnalysis.TierCalls | gmap_retrieval/cost_analysis.py:140-142 | The in-place array loop yields TierSplit |
| CostAnalysis.TierSplitSum | gmap_retrieval/cost_analysis.py:140-142 | The ranges telescope to the calls beyond the first threshold |
| CostAnalysis.TierSplitPartitions | gmap_retrieval/cost_analysis.py:140-142 | With ascending thresholds from 0, the ranges split n >= 0 calls with none negative |
| CostAnalysis.TierSplitWithinRange | gmap_retrieval/cost_analysis.py:140-142 | A range never holds more calls than it is wide |
| CostAnalysis.Prices | gmap_retrieval/cost_analysis.py:136-143 | One price per row of the table |
| CostAnalysis.CostIndexCheck | gmap_retrieval/cost_analysis.py:133-143 | The ValueError is raised exactly when the index sets differ; otherwise prices follow the table's rows |
| CostAnalysis.TotalCallsDecide | gmap_retrieval/cost_analysis.py:136-143 | The calls per location are multiplied by n_loc, so the figures for n_loc locations are those of one location making n_loc times the calls |
| CostAnalysis.PriceNonNegative | gmap_retrieval/cost_analysis.py:140-143 | Non-negative rates give a non-negative price |
| CostAnalysis.PriceEachApi | gmap_retrieval/cost_analysis.py:138-143 | The loop over the table's rows yields Prices |
| CostAnalysis.SumPrices | gmap_retrieval/cost_analysis.py:145 | The loop's total is the sum of the prices |
| CostAnalysis.CalculateCost | gmap_retrieval/cost_analysis.py:127-145 | Uses the default table when none is given (it is well formed); the result is CostOf |
| CostAnalysis.DefaultTableWellFormed | gmap_retrieval/cost_analysis.py:128-130 | The default table has two rates per API and distinct APIs |
| CostAnalysis.DefaultPrice | gmap_retrieval/cost_analysis.py:128-143 | Under the default thresholds, the calls up to 100000 pay the first rate and the rest pay the second |
| CostAnalysis.DefaultCost | gmap_retrieval/cost_analysis.py:127-145 | With the default table, each API is priced on its own rates and the total adds the extra expense |
| CostAnalysis.DefaultCostAt5000 | tests/test_cost_analysis.py:19-31 | 5000 calls each cost 10, 200, 35 and 110, in total 355 |
| CostAnalysis.DefaultCostAt200000 | tests/test_cost_analysis.py:32-48 | 200000 calls each plus 100 extra cost 360, 7200, 1260 and 3960, in total 12880 |
| CostAnalysis.RequestsFor | gmap_retrieval/cost_analysis.py:65 | A file with c results stands for ceil(c/20) requests, or 1 if empty |
| CostAnalysis.FillError | gmap_retrieval/cost_analysis.py:59-64 | Filling the matrix fails only on a missing file or on more sub-directories than rows |
| CostAnalysis.UnlistedLocationsCountOne | gmap_retrieval/cost_analysis.py:59-65 | Locations without a sub-directory count one request per place type |
| CostAnalysis.AtLeastOneRequestPerFile | gmap_retrieval/cost_analysis.py:65 | Every cell of the n_loc x types matrix counts at least one request |
| CostAnalysis.Mean | gmap_retrieval/cost_analysis.py:72-75 | The mean is NaN (None) exactly for an empty directory |
| CostAnalysis.FillCounts | gmap_retrieval/cost_analysis.py:59-64 | The nested loops report FillError and, without one, fill every cell with its result count |
| CostAnalysis.CountRequests | gmap_retrieval/cost_analysis.py:65 | The sum over the matrix is MatrixRequests |
| CostAnalysis.MeanOf | gmap_retrieval/cost_analysis.py:72-75 | The loop's mean is Mean |
| CostAnalysis.GetNApiCalls | gmap_retrieval/cost_analysis.py:33-85 | Applies the default place types when none are given; the result is NApiCalls |
| CostAnalysis.ArgumentChecks | gmap_retrieval/cost_analysis.py:33-77 | A satellite that is not an int or a str is refused first. Then a bad street_view is refused. Success needs a positive n_loc |
| CostAnalysis.NearbySearchCount | gmap_retrieval/cost_analysis.py:59-65 | On success, the nearby count per location is (requests of the files found + one per type for each location without a sub-directory) / n_loc |
| CostAnalysis.NoFillErrorBound | gmap_retrieval/cost_analysis.py:59-64 | Without a fill error, the listed sub-directories fit in the n_loc rows |
| NearbyPlaces.NearbySearch | gmap_retrieval/nearby_places.py:30-55 | A response ends the call after at least one request |
| NearbyPlaces.UseNearbySearch | gmap_retrieval/nearby_places.py:30-55 | The recursive method answers NearbySearch |
| NearbyPlaces.FirstPageAnswersAtOnce | gmap_retrieval/nearby_places.py:41-54 | Without next_page the first response is returned, whatever its status |
| NearbyPlaces.NextPageRetriesBounded | gmap_retrieval/nearby_places.py:43-52 | With next_page, only INVALID_REQUEST is retried, at most 4 - request_count responses are read, and an INVALID_REQUEST is returned only at the cap |
| NearbyPlaces.Merge | gmap_retrieval/nearby_places.py:68-74 | The results are the old ones followed by the next page's; the token is the next page's |
| NearbyPlaces.SearchData.ConcatNextPage | gmap_retrieval/nearby_places.py:68-74 | Succeeds exactly when either page has a token; the data is then Merge's, otherwise unchanged (KeyError) |
| NearbyPlaces.PageLoopEnds | gmap_retrieval/nearby_places.py:166-181 | The loop ends only on a page without a token, keeping the first status and the first results as a prefix |
| NearbyPlaces.FailedContinuationKeepsData | gmap_retrieval/nearby_places.py:177-181 | A continuation that is not OK leaves data unchanged, and the loop requests the same token again |
| NearbyPlaces.FetchPages | gmap_retrieval/nearby_places.py:166-181 | The page loop updates data as PageLoop describes |
| NearbyPlaces.TypeStepExtends | gmap_retrieval/nearby_places.py:155-195 | An existing json is kept. A new file is one of the searched types, written from an OK or ZERO_RESULTS first response |
| NearbyPlaces.TypesFromExtends | gmap_retrieval/nearby_places.py:155-195 | The same over all the place types of one location |
| NearbyPlaces.IdsFromExtends | gmap_retrieval/nearby_places.py:143-195 | Across a run no existing file changes, and new sub-directories belong to searched IDs |
| NearbyPlaces.RowOf | gmap_retrieval/nearby_places.py:241-259 | The rating is NaN exactly when missing or when user_ratings_total is 0 |
| NearbyPlaces.KeptRowsAreMatches | gmap_retrieval/nearby_places.py:238-240 | As many rows as results listing the searched type, each row that of such a result |
| NearbyPlaces.KeptRowAt | gmap_retrieval/nearby_places.py:238-240 | Every result listing the searched type has its row, in order: result i's row sits at the position counting the matches before it |
| NearbyPlaces.FolderRowsCount | gmap_retrieval/nearby_places.py:233-259 | With every file present, a sub-directory gives one row per matching result, carrying its ID and type |
| NearbyPlaces.AppendKept | gmap_retrieval/nearby_places.py:238-259 | The loop over one file appends KeptRows |
| NearbyPlaces.NearbyStore.SearchType | gmap_retrieval/nearby_places.py:156-195 | One place type's step is TypeStep |
| NearbyPlaces.NearbyStore.SearchTypes | gmap_retrieval/nearby_places.py:155-195 | The inner loop is TypesFrom |
| NearbyPlaces.SearchIds | gmap_retrieval/nearby_places.py:143-197 | The loop over IDs ends with the folders, page position and error that IdsFrom describes |
| NearbyPlaces.NearbyStore.GetNearbyPlaces | gmap_retrieval/nearby_places.py:110-195 | A place_types that is not a list raises TypeError with nothing changed; otherwise the directory exists and the folders are IdsFrom's |
| NearbyPlaces.NearbyStore.CreateCsvNearbyPlaces | gmap_retrieval/nearby_places.py:217-268 | An existing file_name is read back. A missing directory is an error. Otherwise the rows are CsvRows, written to "{directory_name}.csv" |
| NearbyPlaces.FlattenRows | gmap_retrieval/nearby_places.py:233-259 | The nested loops yield CsvRows |
| NearbyPlaces.CsvRowsFailurePersists | gmap_retrieval/nearby_places.py:236-237 | The first missing file decides the error |
| Reviews.AddCompletePlace | gmap_retrieval/reviews.py:90-100 | A complete place keeps the six lists aligned and adds one row per review with its place_id and name, language "na" when missing |
| Reviews.PlaceWithoutReviewsAddsNothing | gmap_retrieval/reviews.py:90-102 | A place without a "reviews" key contributes no rows |
| Reviews.HiddenEntriesIgnored | gmap_retrieval/reviews.py:83-85 | Entries starting with "." make no difference |
| Reviews.CompletePlacesTable | gmap_retrieval/reviews.py:83-107 | When every visible file holds a complete place, the table is one row per review, file after file |
| Reviews.SavedPlaceRowsListed | gmap_retrieval/reviews.py:83-100 | When every listed visible place is complete, each review of a visible listed place is a row of the table |
| Reviews.ReviewWithoutTextIsRagged | gmap_retrieval/reviews.py:90-107 | For example, a single file whose place has an id and a name and whose only review lacks "text" leaves the lists of different lengths, and the DataFrame is refused |
| Reviews.AlignedIsLevel | gmap_retrieval/reviews.py:104-105 | The DataFrame accepts the six lists exactly when they are ordered longest first and every place_id has its language |
| Reviews.AddReviewDescends | gmap_retrieval/reviews.py:90-100 | One review appends a prefix of the six lists, so their order holds and the lag never shrinks; the appends are complete exactly when id, name, text, rating and time are present; a KeyError after the place_id append increases the lag |
| Reviews.AddReviewsDescends | gmap_retrieval/reviews.py:90-102 | A place keeps the order and never reduces the lag; a place with an id whose loop breaks (missing name, or a review without text, rating or time) increases it |
| Reviews.ColumnsFromDescends | gmap_retrieval/reviews.py:83-102 | The remaining files keep the order and never reduce the lag |
| Reviews.BrokenPlaceIsRagged | gmap_retrieval/reviews.py:83-107 | One visible file whose place has an id and whose review loop breaks makes the table fail: an error first, or the DataFrame refuses the ragged lists. A place without place_id appends nothing and is not covered |
| Reviews.FetchedFiles | gmap_retrieval/reviews.py:30-52 | Existing files are never replaced. Every ID gets its file. A new file holds its ID's response. No other file appears |
| Reviews.ReviewStore.GetReviews | gmap_retrieval/reviews.py:20-52 | The directory exists afterwards and the files are Fetched's |
| Reviews.ReviewStore.CreateCsvReviews | gmap_retrieval/reviews.py:69-111 | For a listing that names every saved file once, as os.listdir does: an existing file_name gives None with no write. A missing directory is an error. Otherwise the flattened table, or its error, is the result, written to "{directory_name}.csv" |
| Reviews.AppendReviews | gmap_retrieval/reviews.py:91-100 | The loop over one place's reviews is AddReviews |
| Reviews.Flatten | gmap_retrieval/reviews.py:83-102 | The loop over the entries is ColumnsFrom |

## Left out

- **HTTP and signing:** requests, URL building, IOError retry loops and URL signing (`sign_url`) are left out. Responses are inputs.
- **Concurrency:** joblib parallelism and progress bars are left out. IDs are processed one after another, as with `n_jobs=1`.
- **Printing:** printed messages are left out. `calculate_cost` prints and returns None. The model returns the total and every API's price instead. The per-location averages (divided by n_loc) and the rule that prints only non-zero prices are left out.
- **Trigonometry and random draws:** the trigonometric formulas of `get_lat_lon` and `find_zoom_level` are inputs, and so are the random draws.
  - `destination` and `cosDeg` are parameters.
  - Coverage is modelled from the cosine.
- **Camera parameters:** the field of view, pitch and radius parameters affect only URLs and are left out. The heading (`camera_direction`) is modelled by `Headings` and `HeadingsAsWritten` only; the image requests themselves are not modelled.
- **StreetView.StreetViewStore.GetStreetViewImage:** fetches one image per sampled location, as the corrected `Headings` gives for every `camera_direction`. The program does so only for -1 and -2 (`DefaultHeadingsAgree`), and the method does not model the failures of other values. An int there, the documented use, raises TypeError at street_view.py:387 in the first ID that is not yet complete: after its sub-directory is created and the availability requests are made, before any image is saved (`DegreesHeadingFails`). A str value leaves every URL after the first NaN, so `urlopen` raises after the first image of that ID is saved (`TextHeadingReachesFirstOnly`). See Findings.
- **CSV formatting:** CSV files are sequences of rows. Float-to-text conversion is a `show` parameter.
- **Directory listings:** `os.listdir` order is an input sequence.
- **NearbyPlaces.NearbySearch:** responses come from a finite script. Running off its end is reported as Stalled, where the source would keep waiting.
- **StreetView.SampleFrom:** a negative `n_images` makes numpy fail; `n_images` is a `nat`.
- **Satellite.FindZoomLevel:** requires a positive cosine, coverage and size. Division by zero, which gives numpy `inf`, is not modelled.
- **CostAnalysis.CalculateCost:** takes a well-formed table, with one rate per threshold and distinct API labels. Distinct labels are the model's own requirement: a pandas index may repeat a label, and then `n_api_calls[index]` selects several entries. That case is not modelled.
- **Floating point:** float64 values are modelled as exact `real` numbers. Rounding is not modelled in the coverage comparisons of `find_zoom_level` (gmap_retrieval/satellite.py:40-46) or in the prices (gmap_retrieval/cost_analysis.py:140-145).
- **StreetView.OnlyLastRoundCounts:** line 352 of street_view.py is modelled as it runs on pandas before 2.0. There, the undefined name `ignore_index` raises NameError and the round's hits replace the earlier ones. On pandas 2.0 and later, `Series.append` does not exist. The resulting AttributeError is not caught, so the second sampling round raises. That behaviour is not modelled.
- **StreetView.Build** and **StreetView.GetLatLon:** the float parse of each location (`l.split(",")` read as floats, street_view.py:131) is replaced by a syntactic check, `IsLatLonPair`: exactly two non-empty parts around one comma. It accepts text such as "a,b", where numpy raises ValueError. It rejects "1,2,3", which numpy reads as three columns, using the first two (street_view.py:139-140).
- **Satellite.SatelliteStore.GetSatelliteImage:** writes the corrected rows (`CoverageRows`) to image_coverage.csv, not the rows the program writes. The program's rows are `CoverageRowsAsWritten`: misaligned when a skipped ID precedes a download, and with the coverage text repeated. With a float `image_ratio` and at least one download, the program raises TypeError after saving the images and writes no csv. The method does not model that path either (see Findings).
- **StreetView.SaveFresh:** a folder is assumed to list "image{j}.png" only as `Image(j)` and "loc.csv" only as `LocJournal`. An `Other` entry spelling one of those names is outside the model. For such a folder, `SaveFresh`'s "no file is overwritten" and `PngCount` would not describe the real directory.
- **pandas indexing:** pandas label lookups on non-default indexes are left out. IDs and locations are positional.
- **Field types:** JSON fields the code reads without a guard are always present in the model, except where a KeyError decides behaviour. In `create_csv_reviews` that is "result", "reviews" and the review fields. In `create_csv_nearby_places` it is the optional place fields.

## Findings

| source | as written | input that shows it | evidently intended | confidence | as-written member | corrected member |
|---|---|---|---|---|---|---|
| gmap_retrieval/street_view.py:113-131 | a scalar `loc` with scalar `d` and `tc` stays a str, and line 131 splits its characters | `get_lat_lon("40.7,-74.0", 1.0, 0.5)` | wrap `loc` into a one-element list, as for array-like `d` | high, not executed | StreetView.ScalarCallRejected | StreetView.GetLatLon |
| gmap_retrieval/satellite.py:157 | `actual_horizontal_new * image_ratio` multiplies a str Series, so the text is repeated (or a TypeError for a float ratio) | image_ratio 2, coverage 2.0 | the vertical coverage 2.0 * 2 = 4.0 | high, not executed | Satellite.VerticalRepeatsText | Satellite.CoverageText |
| gmap_retrieval/satellite.py:156-160 | the DataFrame aligns `IDs[skip_id==0]` (original labels) with a renumbered coverage Series | first ID skipped, second downloaded | one row per downloaded ID with its own coverage | high, not executed | Satellite.SkippedRowMisaligned | Satellite.CoverageRows |
| gmap_retrieval/street_view.py:386-387 | `"&heading=" + pd.Series(camera_direction)` adds a one-element Series to a str: an int raises TypeError, and a str reaches only the first URL | `camera_direction=90` and an ID whose folder is not yet complete | one request per location with heading 90 | high, not executed | StreetView.DegreesHeadingFails | StreetView.Headings |
