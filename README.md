# poi_tool — a verified model of the deterministic extraction pipeline

This project models in Dafny the deterministic core of `poi_tool`, a tool that
extracts points of interest from OpenStreetMap through the Overpass API.
It covers:

- the tag-filter canonicaliser (`load_tag_filters`, `tagset_hash`);
- the Overpass client: `build_query`, the retrying `fetch`, `elements_id_hash`
  and `fetch_all_chunked`;
- the element normaliser (`normalize_elements`);
- the output envelope of `write_outputs`;
- the reproducibility harness: the `run_repro` loop and `compare_runs`;
- the legacy extractor: `map_to_detailed_category`, the selector lists and
  the element loops of `get_pois` and `get_pois_with_detailed_categories`.

The project proves properties of that model.

Modules, one per source file plus shared helpers:

| file | module | models |
|---|---|---|
| `basics.dfy` | `Basics` | `Option`, `Result` |
| `text.dfy` | `Text` | `str.join`, substring `in`, `str()` of integers, Python's string order |
| `sorting.dfy` | `Sorting` | `sorted` / `list.sort` as a stable insertion sort, `set` deduplication, filtering |
| `osm.dfy` | `Osm` | Overpass JSON elements: a missing member, a `null` member and a value are three cases |
| `ordered_dict.dfy` | `OrderedDict` | Python `dict` with insertion order, and building one by repeated assignment |
| `tags.dfy` | `Tags` | `tags.py`; the copies at `poi_tool/src/tags.py` and `poi_tool/src/poi_tool/src/tags.py` are identical, and the table cites the second |
| `overpass_client.dfy` | `OverpassClient` | `overpass_client.py` |
| `normalize.dfy` | `Normalize` | `normalize.py` |
| `io_utils.dfy` | `IoUtils` | `io_utils.py` |
| `debug_repro.dfy` | `DebugRepro` | `debug_repro.py` |
| `extractor.dfy` | `Extractor` | `extractor.py` |

How the modules treat the outside world:

- The loops of the source are methods with loop invariants. Each method is
  proved equal to a specification function, and the properties are lemmas
  about that function.
- The HTTP server is a function from the attempt number and the query text to
  a reply. The attempt number is counted over the whole session.
- Sleeps are returned as the list of their durations.
- SHA-256, the float formatting, the UTM geometry and the geodesic distance
  are function parameters.

## Model

| member | source | states |
|---|---|---|
| Tags.Expand | poi_tool/src/poi_tool/src/tags.py:12-18 | what one entry appends: `["k"="v"]` per value, `["k"]` for a key without values, nothing without a key (its cases are stated by `Tags.ExpandIff`) |
| Tags.Emitted | poi_tool/src/poi_tool/src/tags.py:10-18 | the list the loop builds before `set`: every entry's expansion, in entry order (characterised by `Tags.EmittedIff`) |
| Tags.TagFilters | poi_tool/src/poi_tool/src/tags.py:10-20 | `sorted(set(out))`: the emitted filters sorted and without repeats (its properties are `Tags.TagFiltersStrictlySorted`, `Tags.TagFiltersIff` and `Tags.TagFiltersBySet`) |
| Tags.LoadTagFilters | poi_tool/src/poi_tool/src/tags.py:6-21 | the nested append loop followed by `sorted(set(...))` returns exactly `TagFilters(entries)` |
| Tags.ExpandIff | poi_tool/src/poi_tool/src/tags.py:12-18 | an entry with a key and values emits one `["k"="v"]` per value; a key without values emits `["k"]`; an entry without a key emits nothing |
| Tags.EmittedIff | poi_tool/src/poi_tool/src/tags.py:10-18 | a filter is emitted exactly when some entry's expansion contains it |
| Tags.TagFiltersStrictlySorted | poi_tool/src/poi_tool/src/tags.py:20 | the result is strictly increasing in Python's string order, so it is sorted and has no duplicates |
| Tags.TagFiltersElements | poi_tool/src/poi_tool/src/tags.py:10-20 | the set of returned filters equals the set of emitted filters |
| Tags.TagFiltersIff | poi_tool/src/poi_tool/src/tags.py:10-20 | a filter is returned if and only if some entry emits it |
| Tags.TagFiltersBySet | poi_tool/src/poi_tool/src/tags.py:10-20 | two configurations that emit the same set of filters give the same list |
| Tags.TagFiltersPermutation | poi_tool/src/poi_tool/src/tags.py:10-20 | reordering the entries does not change the result |
| Tags.TagFiltersExtraEntry | poi_tool/src/poi_tool/src/tags.py:10-20 | appending an entry already present, or an entry without a key, does not change the result |
| Tags.SingleValueEntry | poi_tool/src/poi_tool/src/tags.py:14-20 | an entry with a non-empty key and one value gives exactly that one value filter |
| Tags.DuplicateEntryScenario | poi_tool/src/tags.py:19-26 | `[{amenity,[cafe]}]` and the same entry twice both give `[\"amenity\"=\"cafe\"]` and the same `tagset_hash` |
| Tags.TagsetHash | poi_tool/src/poi_tool/src/tags.py:24-26 | the hash of the filters joined by `|` (its partner is `Tags.TagsetHashBySet`) |
| Tags.TagsetHashBySet | poi_tool/src/poi_tool/src/tags.py:6-26 | two configurations that emit the same set of filters give the same `tagset_hash`, whatever the entry order, repeats or key-less entries |
| Text.JoinAppend | poi_tool/src/poi_tool/src/tags.py:25 | joining two non-empty lists is joining each with the separator between them |
| Text.LexLeTotalPreorder | poi_tool/src/poi_tool/src/tags.py:20 | Python's `<=` on strings is total, transitive and antisymmetric, as `sorted` needs |
| Text.NatTextInjective | poi_tool/src/io_utils.py:15 | `str(n)` of distinct naturals are distinct |
| Text.IntTextInjective | poi_tool/src/io_utils.py:15 | `str(i)` of distinct integers are distinct |
| Text.LexLePrefix | poi_tool/src/poi_tool/src/debug_repro.py:53 | a common prefix does not change the string order |
| Sorting.SortSorted | poi_tool/src/poi_tool/src/normalize.py:34 | under a total preorder the sort returns a sorted permutation of its input |
| Sorting.SortPermutationInvariant | poi_tool/src/poi_tool/src/overpass_client.py:61 | sorting two permutations of each other under an antisymmetric order gives the same list |
| Sorting.StrictlySortedUnique | poi_tool/src/poi_tool/src/tags.py:20 | two strictly sorted lists with the same elements are equal |
| Sorting.FilterMultiset | poi_tool/src/poi_tool/src/debug_repro.py:53-54 | filtering keeps exactly the items that pass the test, with their multiplicity |
| Sorting.FilterSorted | poi_tool/src/poi_tool/src/debug_repro.py:53-54 | filtering a sorted list keeps it sorted |
| OrderedDict.Dict.Put | poi_tool/src/poi_tool/src/normalize.py:25-32 | assignment replaces the value; a new key goes to the end of the order and an existing key keeps its place |
| OrderedDict.PutValid | poi_tool/src/poi_tool/src/normalize.py:25 | assignment keeps the order and the keys in step, without repeats |
| OrderedDict.ValuesCount | poi_tool/src/poi_tool/src/normalize.py:33 | `list(d.values())` has one value per key |
| OrderedDict.CollectSnoc | poi_tool/src/poi_tool/src/normalize.py:16-32 | one more element either leaves the dictionary alone or assigns its key |
| OrderedDict.KeysOfCharacterized | poi_tool/src/poi_tool/src/normalize.py:16-24 | a key is collected exactly when some element yields it |
| OrderedDict.CollectKeys | poi_tool/src/poi_tool/src/normalize.py:16-32 | the dictionary's keys are the keys the elements yield |
| OrderedDict.CollectLatest | poi_tool/src/poi_tool/src/normalize.py:24-32 | the value under a key is the last value written for it |
| OrderedDict.LatestIsLastOccurrence | poi_tool/src/poi_tool/src/normalize.py:24-32 | the surviving value comes from an element with no later element of the same key |
| OrderedDict.ValuesInKeyOrder | poi_tool/src/poi_tool/src/normalize.py:33 | the values come in key insertion order and no key appears twice |
| OrderedDict.ValuesKeysIff | poi_tool/src/poi_tool/src/normalize.py:24-33 | a key occurs among the keys of `values()` if and only if some element yields it |
| OrderedDict.ValueIsLastWrite | poi_tool/src/poi_tool/src/normalize.py:24-33 | every value in `values()` is the last write of its key |
| OrderedDict.KeysOfBound | poi_tool/src/poi_tool/src/normalize.py:15-33 | there are never more keys than elements |
| OrderedDict.CollectRepeatedKey | poi_tool/src/poi_tool/src/normalize.py:24-33 | with keys a, b, c, b the values are those of the first, fourth and third elements, in first-insertion order |
| Osm.KindOf | poi_tool/src/poi_tool/src/normalize.py:4 | a `type` string names an element kind exactly when it is node, way or relation |
| Osm.TypeOrder | poi_tool/src/poi_tool/src/normalize.py:4 | `TYPE_ORDER`: node is 0, relation is 2, way lies between |
| Osm.TypeOrderInjective | poi_tool/src/poi_tool/src/normalize.py:4 | distinct kinds have distinct order values |
| Normalize.ExtractCoords | poi_tool/src/poi_tool/src/normalize.py:7-11 | a node's `lon`/`lat`, any other element's `center` ones (`or {}`), and `None` when `float(None)` would raise (stated by `Normalize.StepOf` and `Normalize.MissingCenterRaises`) |
| Normalize.Normalized | poi_tool/src/poi_tool/src/normalize.py:14-35 | what `normalize_elements` returns or raises: the dictionary of kept rows sorted by key, or the first coordinate failure (its properties are the `Normalize.Normalized*` lemmas) |
| Normalize.StepOf | poi_tool/src/poi_tool/src/normalize.py:16-32 | an element is skipped exactly when its type is unknown or its id is missing; a kept row takes a node's lat/lon or the `center` of others, and the tags (`or {}`) and name (`'N/A'`) |
| Normalize.FirstBroken | poi_tool/src/poi_tool/src/normalize.py:21 | the first element whose coordinates are missing, which makes `float(None)` raise |
| Normalize.NormalizeElements | poi_tool/src/poi_tool/src/normalize.py:14-35 | the loop, the dictionary and the in-place sort return exactly `Normalized(elements)` |
| Normalize.RowLeTotalPreorder | poi_tool/src/poi_tool/src/normalize.py:34 | the sort key `(TYPE_ORDER[type], id)` is a total preorder |
| Normalize.NormalizedKeysNoDup | poi_tool/src/poi_tool/src/normalize.py:15-25 | at most one row per `(type, id)` |
| Normalize.NormalizedStrictlySorted | poi_tool/src/poi_tool/src/normalize.py:34 | rows strictly increase by `(TYPE_ORDER[type], id)` |
| Normalize.NormalizedKeys | poi_tool/src/poi_tool/src/normalize.py:15-33 | the rows' keys are exactly the keys of the valid elements |
| Normalize.NormalizedKeyIff | poi_tool/src/poi_tool/src/normalize.py:16-25 | a key has a row if and only if some element yields it |
| Normalize.SkippedElementNoRow | poi_tool/src/poi_tool/src/normalize.py:18-20 | an element of unknown type or without id changes nothing |
| Normalize.MissingCenterRaises | poi_tool/src/poi_tool/src/normalize.py:10-11 | a way or relation with an id and no `center` makes the call raise |
| Normalize.NormalizedFailsIff | poi_tool/src/poi_tool/src/normalize.py:16-21 | the call raises exactly when some kept element lacks a coordinate |
| Normalize.NormalizedLastWins | poi_tool/src/poi_tool/src/normalize.py:24-32 | each row is the one built from the last element with its key |
| Normalize.NormalizedCount | poi_tool/src/poi_tool/src/normalize.py:15-33 | the number of rows is the number of distinct valid keys, and at most the number of elements |
| Normalize.StrictlySortedKeysUnique | poi_tool/src/poi_tool/src/normalize.py:34 | two strictly key-sorted row lists with the same keys have the same key sequence |
| Normalize.NormalizedOrderIndependent | poi_tool/src/poi_tool/src/normalize.py:33-34 | inputs with the same set of valid keys give the same `(type, id)` sequence, whatever their order |
| Normalize.DeterminismScenario | poi_tool/tests/test_determinism.py:12-21 | the shuffled list with a duplicate node gives `[(node,1),(way,2),(relation,3)]`, and the node row comes from the later, nameless duplicate |
| OverpassClient.BuildQuery | poi_tool/src/poi_tool/src/overpass_client.py:20-31 | the stripped query text: the header with timeout and optional date pin, the union of three selectors per filter, and `out center tags;` (stated by `OverpassClient.AllSelectors`, `OverpassClient.DatePinIff` and `OverpassClient.QueryFrame`) |
| OverpassClient.AllSelectors | poi_tool/src/poi_tool/src/overpass_client.py:23 | three selectors per filter, node, way and relation, in filter order, each over the same bbox |
| OverpassClient.UnionIsSelectors | poi_tool/src/poi_tool/src/overpass_client.py:23 | the union text is the selectors joined by the separator |
| OverpassClient.DatePinIff | poi_tool/src/poi_tool/src/overpass_client.py:22-25 | the header contains `[date:"` if and only if a non-empty snapshot is given |
| OverpassClient.DatePinText | poi_tool/src/poi_tool/src/overpass_client.py:22-30 | with a snapshot, the query contains `[date:"<snapshot>"]` |
| OverpassClient.QueryFrame | poi_tool/src/poi_tool/src/overpass_client.py:24-30 | the query starts with `[out:json][timeout:<t>]` and ends with `out center tags;` |
| OverpassClient.SnapshotScenario | poi_tool/tests/test_determinism.py:24-27 | the default client with snapshot `2025-09-01T00:00:00Z` puts that date clause in the query |
| OverpassClient.Attempt | poi_tool/src/poi_tool/src/overpass_client.py:37-49 | an attempt passes exactly when the status is not busy and is 2xx, the body is JSON, the remark does not signal truncation and `elements` is present, possibly as `null` |
| OverpassClient.RuntimeErrorRemarkFails | poi_tool/src/poi_tool/src/overpass_client.py:45-46 | a remark containing "runtime error" anywhere, in any letter case, fails the attempt |
| OverpassClient.NullElementsPassAttempt | poi_tool/src/poi_tool/src/overpass_client.py:47-49 | a 200 reply whose `elements` is `null` is returned by `fetch`, since the member is present |
| OverpassClient.Backoffs | poi_tool/src/poi_tool/src/overpass_client.py:50-53 | the k sleeps are `Backoff(0..k-1)` |
| OverpassClient.BackoffStep | poi_tool/src/poi_tool/src/overpass_client.py:50-53 | the first sleep is 1 and each next one is `min(2 * previous, 30)` |
| OverpassClient.BackoffCapped | poi_tool/src/poi_tool/src/overpass_client.py:53 | from the sixth sleep on, every sleep is 30 |
| OverpassClient.BackoffValues | poi_tool/src/poi_tool/src/overpass_client.py:50-53 | the sleeps are 1, 2, 4, 8, 16, 30, 30 |
| OverpassClient.FirstOk | poi_tool/src/poi_tool/src/overpass_client.py:36-49 | the first passing attempt in a range, with every earlier one failing |
| OverpassClient.FirstOkUnique | poi_tool/src/poi_tool/src/overpass_client.py:36-49 | a passing attempt preceded only by failing ones is the one the loop returns on |
| OverpassClient.Fetch | poi_tool/src/poi_tool/src/overpass_client.py:33-55 | the retry loop returns exactly `FetchSpec`: the result, the sleeps and the number of POSTs |
| OverpassClient.FetchSpec | poi_tool/src/poi_tool/src/overpass_client.py:33-55 | what `fetch` returns or raises, with its sleeps and POST count; a returned call made at least one POST (characterised by `OverpassClient.FetchSpecFirstOk` and `OverpassClient.FetchSucceedsIff`) |
| OverpassClient.FetchSpecFirstOk | poi_tool/src/poi_tool/src/overpass_client.py:33-55 | the call returns the first passing attempt after one sleep per failure, or raises the last error with `max_retries` sleeps, or fails the assertion when no attempt was allowed |
| OverpassClient.FetchSuccessPersists | poi_tool/src/poi_tool/src/overpass_client.py:36-49 | a larger budget does not change a call that already returned |
| OverpassClient.FetchBounds | poi_tool/src/poi_tool/src/overpass_client.py:36-53 | at most `max_retries` POSTs, and a sleep after every failed one |
| OverpassClient.FetchSucceedsIff | poi_tool/src/poi_tool/src/overpass_client.py:36-49 | the call returns if and only if some attempt in budget passes, and then it returns the first such one |
| OverpassClient.FetchAllFail | poi_tool/src/poi_tool/src/overpass_client.py:50-55 | when all attempts fail, the last error is raised after `max_retries` sleeps |
| OverpassClient.FetchWithoutRetries | poi_tool/src/poi_tool/src/overpass_client.py:54 | with `max_retries <= 0` no POST is made and the assertion fails |
| OverpassClient.BusyThenOkScenario | poi_tool/src/poi_tool/src/overpass_client.py:36-53 | four 503 replies and then a good one: the payload after sleeps 1, 2, 4, 8 |
| OverpassClient.AlwaysBusyScenario | poi_tool/src/poi_tool/src/overpass_client.py:36-55 | five 503 replies: the busy error after sleeps 1, 2, 4, 8, 16 |
| OverpassClient.ElementsIdHash | poi_tool/src/poi_tool/src/overpass_client.py:57-63 | the hash of the sorted `order:id` strings joined by `|` (its partners are `OverpassClient.ElementsIdHashPermutation` and `OverpassClient.IdStringsKeepDuplicates`) |
| OverpassClient.IdStrings | poi_tool/src/poi_tool/src/overpass_client.py:59-61 | the sorted ids are a permutation of the per-element id strings |
| OverpassClient.IdStringsSorted | poi_tool/src/poi_tool/src/overpass_client.py:61 | the ids are sorted in string order |
| OverpassClient.ElementsIdHashPermutation | poi_tool/src/poi_tool/src/overpass_client.py:58-63 | permuting the elements does not change the hash |
| OverpassClient.IdStringsKeepDuplicates | poi_tool/src/poi_tool/src/overpass_client.py:60-62 | a repeated element keeps both ids |
| OverpassClient.ChunksCover | poi_tool/src/poi_tool/src/overpass_client.py:72-73 | the chunks concatenate to the filter list |
| OverpassClient.ChunkCount | poi_tool/src/poi_tool/src/overpass_client.py:72 | the number of chunks is `ceil(len(filters) / chunk_size)` |
| OverpassClient.ChunkSizes | poi_tool/src/poi_tool/src/overpass_client.py:73 | every chunk has 1 to `chunk_size` filters, and all but the last have exactly `chunk_size` |
| OverpassClient.FetchSeries | poi_tool/src/poi_tool/src/overpass_client.py:72-75 | at most one payload per chunk, and one per chunk when nothing raised |
| OverpassClient.SeriesErrorPersists | poi_tool/src/poi_tool/src/overpass_client.py:72-75 | after a chunk raises, later chunks change nothing |
| OverpassClient.NullElementsStopSeries | poi_tool/src/poi_tool/src/overpass_client.py:72-77 | a chunk whose reply has `"elements": null` ends the loop with the `TypeError` of `for el in None`: nothing of it is merged and no later chunk is sent |
| OverpassClient.PayloadStep | poi_tool/src/poi_tool/src/overpass_client.py:76-77 | one more payload appends its elements, and replaces `osm3s` only when the member is present |
| OverpassClient.MergeElements | poi_tool/src/poi_tool/src/overpass_client.py:77-81 | the merge loop assigns each element with a type and an id under its key |
| OverpassClient.FetchAllChunkedSpec | poi_tool/src/poi_tool/src/overpass_client.py:65-82 | the result of `fetch_all_chunked`: `ValueError` for step 0, the empty result for a negative step, otherwise the chunk series' error or its last `osm3s` and merged elements (stated by `OverpassClient.ChunkedResult`, `OverpassClient.ChunkedCallCount` and `OverpassClient.MergedElements`) |
| OverpassClient.FetchChunk | poi_tool/src/poi_tool/src/overpass_client.py:73-81 | one pass of the chunk loop is one more step of `FetchSeries`, and keeps the merged dictionary and `osm3s` equal to those of the payloads so far |
| OverpassClient.FetchChunks | poi_tool/src/poi_tool/src/overpass_client.py:70-81 | the chunk loop equals `FetchSeries` over the chunks, with the merged dictionary and the last `osm3s` |
| OverpassClient.FetchAllChunked | poi_tool/src/poi_tool/src/overpass_client.py:65-82 | the whole call returns `FetchAllChunkedSpec`, including the `ValueError` for `chunk_size == 0` |
| OverpassClient.ChunkedWithoutQueries | poi_tool/src/poi_tool/src/overpass_client.py:71-82 | without filters, or with a negative chunk size, nothing is fetched and the result is `{}` with no elements |
| OverpassClient.ChunkedCallCount | poi_tool/src/poi_tool/src/overpass_client.py:72-75 | a successful call makes `ceil(len(filters)/chunk_size)` fetches |
| OverpassClient.MergedElements | poi_tool/src/poi_tool/src/overpass_client.py:77-82 | the merged elements are distinct by `(type, id)`, all have both, each is the last one received with its key, and every key received appears |
| OverpassClient.ChunkedResult | poi_tool/src/poi_tool/src/overpass_client.py:70-82 | a successful call returns the last `osm3s` and the merged elements of all chunks |
| OverpassClient.LastOsm3sNone | poi_tool/src/poi_tool/src/overpass_client.py:71-76 | when no chunk carried `osm3s`, the result is `{}` |
| OverpassClient.LastOsm3sLast | poi_tool/src/poi_tool/src/overpass_client.py:76 | otherwise it is the `osm3s` of the last chunk that carried one |
| IoUtils.IdListHash | poi_tool/src/io_utils.py:15-16 | the hash of the `type:id` strings joined by `|`, in row order (its partners are `IoUtils.IdListIff` and `IoUtils.NormalizedIdListHash`) |
| IoUtils.MetaRow | poi_tool/src/io_utils.py:25-35 | the first CSV row (stated by `IoUtils.MetaRowLayout`, `IoUtils.MetaRowDefaults` and `IoUtils.MetaRowReadsNamedKeys`) |
| IoUtils.DataRow | poi_tool/src/io_utils.py:38 | one data line: type, id, both coordinates with eight decimals, and the name (used by `IoUtils.WriteDataRows`) |
| IoUtils.WriteOutputs | poi_tool/src/io_utils.py:12-43 | the new meta is the old one plus `id_list_sha256`; the CSV has `2 + len(rows)` lines: the meta row, the header, then one line per row in order; the paths are `out_dir/pois.csv` and `out_dir/pois.json` |
| IoUtils.WriteDataRows | poi_tool/src/io_utils.py:37-38 | the loop appends one `type, id, lat, lon, name` line per row and keeps the earlier lines |
| IoUtils.MetaRowLayout | poi_tool/src/io_utils.py:25-35 | nine label/value pairs in fixed label order, the last value being the id-list hash |
| IoUtils.MetaRowDefaults | poi_tool/src/io_utils.py:25-35 | missing keys render as `''`, and `bbox_wgs84` as `[]` |
| IoUtils.MetaRowReadsNamedKeys | poi_tool/src/io_utils.py:25-35 | the meta row depends only on the eight named keys |
| IoUtils.MetaCopy | poi_tool/src/io_utils.py:17-18 | the copy has the caller's keys plus `id_list_sha256`, with the other values unchanged |
| IoUtils.IdEntryInjective | poi_tool/src/io_utils.py:15 | distinct `(type, id)` give distinct `type:id` strings |
| IoUtils.IdListIff | poi_tool/src/io_utils.py:15-16 | two row lists have the same id list if and only if they have the same `(type, id)` sequence |
| IoUtils.NormalizedIdListHash | poi_tool/src/io_utils.py:15-16 | normalising inputs with the same valid keys gives the same id list and `id_list_sha256` |
| IoUtils.IdEntryNotElementIdString | poi_tool/src/io_utils.py:15 | a `type:id` entry never equals the digit-prefixed id string `elements_id_hash` sorts |
| IoUtils.PathJoinRelative | poi_tool/src/io_utils.py:20-21 | joining a relative name appends it after the directory and a single `/` |
| IoUtils.OutputPaths | poi_tool/src/io_utils.py:20-21 | the two paths are `out_dir/pois.csv` and `out_dir/pois.json`, and they differ |
| DebugRepro.SetupFor | poi_tool/src/poi_tool/src/debug_repro.py:22-32 | the defaulted centre, the 1000 m box with its zone, the default endpoint and the one query of the canonical filters (stated by `DebugRepro.RunRepro` and `DebugRepro.CenterDefaults`) |
| DebugRepro.RecordsOf | poi_tool/src/poi_tool/src/debug_repro.py:36-46 | record `i` has run `i`, the fixed bbox, zone and URL, the payload's `osm_base_ts`, `len(elements)` and the id hash of those elements |
| DebugRepro.ReproStep | poi_tool/src/poi_tool/src/debug_repro.py:35-43 | one iteration makes one fetch; it appends the payload or stops with an error, and a recorded payload never has a `null` `osm3s` |
| DebugRepro.NullElementsRaise | poi_tool/src/poi_tool/src/debug_repro.py:35-43 | a reply with `"elements": null` passes `fetch` and raises while it is hashed, before `osm3s` is read, and writes no record |
| DebugRepro.ReproSpec | poi_tool/src/poi_tool/src/debug_repro.py:34-48 | the loop after `n` iterations or after the one that raised (characterised by `DebugRepro.ReproShape` and `DebugRepro.ReproErrorPersists`) |
| DebugRepro.RunRepro | poi_tool/src/poi_tool/src/debug_repro.py:16-48 | the setup uses the defaulted centre, the canonical filters and one query; the loop equals `ReproSpec` for `range(runs)`; the records are those of the completed runs |
| DebugRepro.RunLoop | poi_tool/src/poi_tool/src/debug_repro.py:34-48 | the loop equals `ReproSpec` and writes the records of the completed runs |
| DebugRepro.RunIteration | poi_tool/src/poi_tool/src/debug_repro.py:35-47 | one iteration is one `ReproStep`, and the records stay those of the completed runs |
| DebugRepro.RunOnce | poi_tool/src/poi_tool/src/debug_repro.py:35-43 | the fetch and the `osm3s` access of one iteration equal `ReproStep` |
| DebugRepro.ReproErrorPersists | poi_tool/src/poi_tool/src/debug_repro.py:34-35 | once an iteration raised, more iterations change nothing |
| DebugRepro.ReproShape | poi_tool/src/poi_tool/src/debug_repro.py:34-47 | there is one fetch per record and one more if the loop raised; without an error there are exactly `runs` records, `run_0 … run_{runs-1}` |
| DebugRepro.CenterDefaults | poi_tool/src/poi_tool/src/debug_repro.py:22-23 | a missing lat or lon acts as 0.0 |
| DebugRepro.SameElementsSameHash | poi_tool/src/poi_tool/src/debug_repro.py:36-45 | runs whose element lists are permutations of each other record the same `id_hash` |
| DebugRepro.RunFileNameOrder | poi_tool/src/poi_tool/src/debug_repro.py:53 | `run_10.json` sorts before `run_2.json` |
| DebugRepro.Hashes | poi_tool/src/poi_tool/src/debug_repro.py:57 | `[r['id_hash'] for r in runs]`, or the `KeyError` of the first run without one (characterised by `DebugRepro.HashesIff`) |
| DebugRepro.Compared | poi_tool/src/poi_tool/src/debug_repro.py:57-59 | the returned dictionary or the error (characterised by `DebugRepro.StableIff`) |
| DebugRepro.CompareRuns | poi_tool/src/poi_tool/src/debug_repro.py:51-59 | the loop over sorted names returns `Compared` of the loaded `.json` files |
| DebugRepro.HashesIff | poi_tool/src/poi_tool/src/debug_repro.py:57 | the hashes are read if and only if every run has `id_hash`; otherwise the first run without it raises |
| DebugRepro.OneDistinctIff | poi_tool/src/poi_tool/src/debug_repro.py:58 | `len(set(hs)) == 1` if and only if `hs` is non-empty and constant |
| DebugRepro.StableIff | poi_tool/src/poi_tool/src/debug_repro.py:57-59 | `runs` is the file count, `hashes` follow file order, and `stable` holds if and only if there is at least one run and all hashes are equal |
| DebugRepro.NoRunsNotStable | poi_tool/src/poi_tool/src/debug_repro.py:53-59 | a directory without `.json` files gives `{runs: 0, stable: false, hashes: []}` |
| DebugRepro.JsonNamesSpec | poi_tool/src/poi_tool/src/debug_repro.py:53-54 | the files read are exactly the `.json` names, each as often as listed, in sorted order |
| Extractor.DetailedCategory | poi_tool/src/poi_tool/src/extractor.py:209-285 | the rule chain, first match wins (its properties are `Extractor.OtherIff`, `Extractor.PublicSchoolsIff`, `Extractor.TransitFirst` and `Extractor.DetailedCategoryRange`) |
| Extractor.DetailedCategoryRange | poi_tool/src/poi_tool/src/extractor.py:213-285 | the result is one of the 20 names of `all_categories`, or "other" |
| Extractor.PublicSchoolsIff | poi_tool/src/poi_tool/src/extractor.py:214-217 | "Public Schools" if and only if `amenity=school` and `school:type` is not private or religious, a missing one included |
| Extractor.TransitFirst | poi_tool/src/poi_tool/src/extractor.py:220-221 | outside the school rules, a transit `public_transport` value gives "Public Transit Lines" whatever else is tagged |
| Extractor.StationInParkScenario | poi_tool/src/poi_tool/src/extractor.py:220-229 | `public_transport=station` with `leisure=park` gives "Public Transit Lines" |
| Extractor.FallbackNotOther | poi_tool/src/poi_tool/src/extractor.py:272-283 | a non-empty `amenity`, `historic`, `leisure`, `shop`, `tourism` or `landuse` value rules out "other" |
| Extractor.OtherIff | poi_tool/src/poi_tool/src/extractor.py:213-285 | "other" if and only if no fallback key has a non-empty value and no transit, office or building rule matches |
| Extractor.NoInspectedKeysOther | poi_tool/src/poi_tool/src/extractor.py:285 | tags with none of the inspected keys give "other" |
| Extractor.BasicSelectors | poi_tool/src/poi_tool/src/extractor.py:40-48 | the selector loop of `get_pois` builds three selectors per category key |
| Extractor.DetailedSelectors | poi_tool/src/poi_tool/src/extractor.py:127-146 | the nested selector loop builds three selectors per key of every mapping list |
| Extractor.KeySelectors | poi_tool/src/poi_tool/src/extractor.py:142-146 | the inner loop appends three selectors per key of one mapping list |
| Extractor.MappingSelectors | poi_tool/src/poi_tool/src/extractor.py:141-146 | the nested loop over dictionary values gives the selectors of the flattened key list |
| Extractor.SelectorsIndex | poi_tool/src/poi_tool/src/extractor.py:44-48 | selector `k` selects type `k % 3` (node, way, relation) for key `k / 3` |
| Extractor.DetailedKeys | poi_tool/src/poi_tool/src/extractor.py:127-137 | the detailed variant selects ten keys, `public_transport` adding `route` |
| Extractor.SelectorCounts | poi_tool/src/poi_tool/src/extractor.py:44-146 | 15 selectors in `get_pois` and 30 in the detailed variant, three per key in key order |
| Extractor.BestCategory | poi_tool/src/poi_tool/src/extractor.py:90-94 | the category loop gives the first present key of `categories`, or "N/A" |
| Extractor.FirstPresentIff | poi_tool/src/poi_tool/src/extractor.py:90-94 | no key found if and only if none is in the tags; otherwise the one found is present and no earlier key is |
| Extractor.Classify | poi_tool/src/poi_tool/src/extractor.py:90-190 | the category step of each variant equals its classifier: the first present key for `get_pois`, the rule chain with "other" dropped for the detailed variant |
| Extractor.CategoryForIff | poi_tool/src/poi_tool/src/extractor.py:90-190 | `get_pois` labels every positioned element with a category key or "N/A"; the detailed variant drops exactly the "other" ones and keeps names of `all_categories` |
| Extractor.Rows | poi_tool/src/poi_tool/src/extractor.py:73-105 | the rows of the element loop in element order, or `None` when it raises (characterised by `Extractor.RowsNoneIff`, `Extractor.OutcomeIff`, `Extractor.RowsAppend` and `Extractor.RowsKept`) |
| Extractor.CollectRows | poi_tool/src/poi_tool/src/extractor.py:74-105 | the element loop returns exactly `Rows`, or raises |
| Extractor.RowsNoneIff | poi_tool/src/poi_tool/src/extractor.py:75-96 | the loop raises if and only if some positioned element has `null` tags |
| Extractor.OutcomeIff | poi_tool/src/poi_tool/src/extractor.py:76-96 | an element without position is skipped; a positioned `null` tag object raises; a kept row has the position, the geodesic distance, the name (default "N/A") and the classifier's category |
| Extractor.RowsAppend | poi_tool/src/poi_tool/src/extractor.py:73-105 | rows of two runs of elements are the rows of each, in element order |
| Extractor.RowsSingle | poi_tool/src/poi_tool/src/extractor.py:74-105 | one element gives no row, one row, or raises |
| Extractor.SkippedLeavesRows | poi_tool/src/poi_tool/src/extractor.py:86-190 | an element without position, or one the detailed variant drops as "other", leaves the rows unchanged wherever it stands |
| Extractor.RowsKept | poi_tool/src/poi_tool/src/extractor.py:74-105 | every row comes from a kept element, and there are at most as many rows as elements |
| Extractor.DetailedRowsCategorised | poi_tool/src/poi_tool/src/extractor.py:184-201 | the detailed variant returns no "other" row; every category is one of `all_categories` |
| Extractor.Pois | poi_tool/src/poi_tool/src/extractor.py:59-110 | the rows the `try` block yields for a reply, the empty list for every failure (characterised by `Extractor.PoisNonEmpty`) |
| Extractor.ReadReply | poi_tool/src/poi_tool/src/extractor.py:59-110 | the `try` block equals `Pois` for the reply |
| Extractor.GetPois | poi_tool/src/poi_tool/src/extractor.py:22-110 | `get_pois` sends the 15-selector query and returns `Pois` of the reply |
| Extractor.GetPoisWithDetailedCategories | poi_tool/src/poi_tool/src/extractor.py:113-206 | the detailed variant sends the 30-selector query and returns `Pois` of the reply under the rule chain |
| Extractor.PoisNonEmpty | poi_tool/src/poi_tool/src/extractor.py:59-110 | rows come back only from a successful, decoded reply whose elements raised nothing, and they are that loop's rows |

## Where the code and the design description differ

The model follows the code in each of these cases.

- An entry without a key is skipped silently. The design calls it a configuration error.
- A way or relation without `center` makes `normalize_elements` raise, because `float(None)` fails. It does not produce or skip a row.
- `fetch_all_chunked` uses 4 filters per chunk by default, not 1.
- `run_repro` hashes elements through `elements_id_hash`. That function uses digit prefixes (`0:1`) and a lexicographic sort, so it is not the `type:id` list that `write_outputs` hashes in row order (`IoUtils.IdEntryNotElementIdString`).
- A directory without run files is reported as not stable, since `len(set([])) == 1` is false.
- `fetch` with `max_retries <= 0` fails its `assert` instead of raising a fetch error.
- `compare_runs` orders hashes by file name, so `run_10.json` comes before `run_2.json`.
- `build_query` emits the filters in the order given. The canonical sorted order comes from `load_tag_filters`.
- A run of `run_repro` that raises leaves the records of the earlier runs written.

## Left out

- Network I/O (the httpx and `requests` POSTs, timeouts, headers) becomes a reply function. `time.sleep` becomes the returned list of sleep durations.
- SHA-256 is a `hash: string -> string` parameter; only equal inputs giving equal outputs is used.
- The pyproj UTM geometry (`bbox_wgs84_for_square_m`) and the geodesic box and distance of the extractor are function parameters. Float rendering (`str(float)`, `:.8f`) is a text parameter too, or the bounding box is given as its four coordinate texts.
- YAML parsing: the tag configuration is the already-parsed list of entries, with string keys and values. Non-string YAML scalars and a configuration that is not a mapping are not modelled.
- `json.dump`, `json.dumps` escaping of strings, `csv.writer` quoting, `os.makedirs`, `os.listdir`, file reads and writes, and the UTC timestamp directory name are not modelled. `compare_runs` takes the file names and a loader function; run records are maps from string to string.
- The unused `tag_hash` in `run_repro` is not computed.
- `DebugRepro.RunRepro` returns the number of POST attempts but not the sleeps of its fetches (the sleeps of each fetch are modelled in `OverpassClient.Fetch`).
- JSON `null` inside an `elements` array, non-object elements, and non-dict replies (`.get` on them raising) are not modelled. The reply is decoded into the members the code reads. A `null` `elements` member as a whole is modelled.
- The extractor's error `print`s (extractor.py lines 109 and 205) are left out, and so is the `distance_km=0.5` default: the distance is always passed.
- The extractor's box and distance are the total parameters `bbox` and `dist`. An exception from the box computed before the `try` (extractor.py lines 32-35) is therefore not modelled. Neither is an exception from the distance inside the `try` (line 97), which would give the empty frame.
- The exception types are one error datatype per module rather than Python's classes; the messages are not modelled.
- `geocode_address`, the grid analyses (`create_grid_analysis*`), the CLI, `main.py` and the Streamlit app are outside the modelled core: they are library calls, float approximations, repeated live queries or argument glue.
- `Extractor.GetPois` returns the rows of the pandas frame, not the frame itself; an empty frame and the frame of an empty list are both the empty row list.
