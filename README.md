# Verified model of the `api-produtos` catalog ingestion and image selector

This project models two components of the `api-produtos` service in Dafny and
proves what they do.

**Paginated catalog ingestion** (`api-produtos/ingest_api.py`, module
`IngestApi` in `ingest_api.dfy`):

- `fetch_page` issues one request and retries server errors at most three
  times, pausing 1.5 s, 3 s and 6 s.
- `iter_all_items` reads `totalPages` from the first page and walks pages
  `start_page, start_page + 1, ...` until the page cap or the page count is
  reached. It reuses the first payload rather than fetching it again.
- Its inner `extract_items` finds the item list by a fixed key priority.
- `filter_raw_payload` scrubs the price keys from the raw record.
- `map_item_to_row` builds the SKU from `codigo_produto` without its dots and
  rejects an item whose SKU comes out empty.
- `ingest_from_api` writes the admitted rows and counts upserts and chunks. It
  commits every `commit_every` rows, and once more at the end after two
  `ANALYZE` statements.

**Image cache-aside selector** (`api-produtos/image_checker.py`, module
`ImageChecker` in `image_checker.dfy`):

- A Redis cache keyed `best_image_for_<id>` holds one of three things per
  product: no entry, the marker `"null"`, or the base64 of the chosen image.
- `check_image_exists` answers from the cache when it can.
- Otherwise it fetches the product's images from the Copafer API and keeps
  the entries with a truthy `base64`. It then builds an OpenRouter payload
  from the instruction plus one line-break-free `image_url` per image, and
  asks the model.
- It reads `best_image_index` against the sentinel `932042349` and the range
  `[0, n)`, then writes a negative or positive entry back.

Supporting modules:

- `wrappers.dfy`: `Option` and `Result`.
- `pyvalues.dfy`: the JSON-like Python values both scripts inspect, plus the
  built-ins they apply to them: `dict.get`, truthiness, `int()`, `strip`,
  `lower`, `replace` and `in`.
- `http.dfy`: an HTTP answer as a status and an optional decoded body, and
  the `ok` test.
- `seqs.dfy`: two slicing facts.

How the outside world enters the model:

- **The catalog API** is an oracle `catalog(page)(attempt)`: the answer to the
  `attempt`-th request for that page.
- **The database** is the class `IngestApi.Connection`. Its fields are the
  products table, the log of chunk batches, the number of upserts, the upsert
  count at each commit, and the tables analysed.
- **The `ingest_csv` helpers** (`norm_str`, `parse_decimal_br`,
  `build_product_text`, `chunk_by_tokens`) and `str()` are uninterpreted
  functions, held in `IngestApi.Collaborators`.
- **The Redis cache** is the class `ImageChecker.ImageCache`: a map from key
  to value-and-TTL, plus an availability flag.
- **The Copafer answer** is a value.
- **The OpenRouter endpoint** is a function from payload to answer.
- **`json.loads` of the model's message** is a function `parse`.

The page walk and the selector's decision chain each have a specification
function (`IngestApi.IterSpec`, `ImageChecker.SelectorRun`). The imperative
methods are proved equal to these functions, and the lemmas state the
properties of the functions.

Points where the code behaves in ways a caller might not expect, modelled
as the code does them:

- `prepare_openrouter_payload` sends each base64 as the image `url` with only
  its line breaks removed; no `data:` URI prefix is added.
- On the positive path, `imageExists` comes from re-reading the cache after
  the write. On an unavailable cache it is therefore false even though an
  image was chosen.
- The selector can raise. `re.sub` on a `base64` that is a truthy non-string
  (a number, a list) raises `TypeError`, which no handler catches. The model
  gives this path the outcome `Raised`.
- Ingestion raises on an item that is not a dict, because `.get` raises
  `AttributeError` there. It also raises `ZeroDivisionError` after the first
  written row when `commit_every` is 0. Both paths are modelled.

## Model

| member | source | states |
|---|---|---|
| `IngestApi.Decode` | api-produtos/ingest_api.py:68-72 | `raise_for_status` then `json()`: success exactly for a status outside 400..599 with a JSON body, whose value is returned; a 4xx/5xx raises `HttpError` with that status |
| `IngestApi.FetchPage` | api-produtos/ingest_api.py:47-72 | one request exactly when the first status is below 500, otherwise at most 4; every retry but the last answered not ok, and retrying stops at the first ok answer; the pauses are `[1500, 3000, 6000]` ms cut to the retries made; the result decodes the last answer |
| `IngestApi.RetryRecoversAfterThreeRetries` | api-produtos/ingest_api.py:54-67 | three 503 answers then a 200: four requests and the 200's payload is returned |
| `IngestApi.RetryGivesUpAfterFourRequests` | api-produtos/ingest_api.py:58-68 | a server answering 503 for ever gets four requests, then `HttpError(503)` is raised |
| `IngestApi.IntFieldOr` | api-produtos/ingest_api.py:85-86 | `int(p.get(key) or dflt)`: the default for a missing or falsy value, the integer itself for a non-zero int |
| `IngestApi.ReadTotals` | api-produtos/ingest_api.py:84-86 | the first payload must be a dict; `totalPages` is read as `int(totalPages or 1)` |
| `IngestApi.ExtractItemsPriority` | api-produtos/ingest_api.py:97-113 | `extract_items` returns the first list found among `produtos`, `items`, then for `data`, `results`, `content` the list itself or its nested `items` list, and `[]` when none exists |
| `IngestApi.ExtractItems` | api-produtos/ingest_api.py:97-113 | `extract_items` as a definition: the first list under `produtos` or `items`, else under `data`/`results`/`content` (directly or as a nested `items`), else `[]`; `ExtractItemsPriority` states the order for all inputs |
| `IngestApi.PageCount` | api-produtos/ingest_api.py:125-134 | the loop always processes at least one page and stops at the page cap or past `totalPages` |
| `IngestApi.PageCountIsFirstStop` | api-produtos/ingest_api.py:125-134 | the loop never stops earlier than `PageCount`: it is the first page count after which the stop rule holds |
| `IngestApi.WalkPages` | api-produtos/ingest_api.py:115-134 | the page loop as a definition: pages fetched in order, their items concatenated, the first failing page requested and its error ending the walk; stated by `WalkPagesSnoc`, `WalkPagesStopsAtError` and `WalkPagesRequests` |
| `IngestApi.WalkPagesSnoc` | api-produtos/ingest_api.py:115-124 | one more page after an error-free walk adds its items after the items so far, and its number after the pages requested so far |
| `IngestApi.WalkPagesStopsAtError` | api-produtos/ingest_api.py:115-117 | once a page fails, later pages change nothing: the error ends the walk |
| `IngestApi.WalkPagesRequests` | api-produtos/ingest_api.py:115-134 | a walk requests a prefix of its window, all of it when no error occurs, and at least one page when an error does |
| `IngestApi.IterSpec` | api-produtos/ingest_api.py:75-134 | `iter_all_items` as a definition: a failing first page or unreadable totals end it at page `start`, else the walk of the `PageCount` window; `IterAllItems` is proved equal to it |
| `IngestApi.IterVisitsConsecutivePages` | api-produtos/ingest_api.py:115-134 | `iter_all_items` requests `start, start+1, ...` in order, at least one page, never more than a positive page cap |
| `IngestApi.IterRequestsWholeWindow` | api-produtos/ingest_api.py:84-134 | with no error, exactly the `PageCount` pages from `start` are requested |
| `IngestApi.ThreePagesWithEmptyMiddle` | api-produtos/ingest_api.py:115-134 | with `totalPages = 3` and no cap, pages 1, 2, 3 are requested and an empty page 2 does not end the walk |
| `IngestApi.WalkThreePages` | api-produtos/ingest_api.py:115-134 | walking pages 1..3 whose middle page is empty yields the items of pages 1 and 3 in order |
| `IngestApi.IterAllItems` | api-produtos/ingest_api.py:75-134 | the generator's yields, pages requested and error equal `IterSpec`: the first page's error, a `totalPages` that cannot be read, or the walk of the page window |
| `IngestApi.WalkWindow` | api-produtos/ingest_api.py:115-134 | the `while True` loop with its two breaks yields exactly the walk of the `PageCount` pages from `start_page` |
| `IngestApi.VisitPage` | api-produtos/ingest_api.py:116-117 | one turn of the loop gives what fetching and extracting that page gives; a payload that is not a dict raises |
| `IngestApi.ScrubPrices` | api-produtos/ingest_api.py:144-153 | the filtered payload holds no key whose lower-cased name contains `preco` or `price`, and no more fields than the input |
| `IngestApi.ScrubPricesGet` | api-produtos/ingest_api.py:144-154 | a lookup in the filtered payload finds nothing under a price key, and under any other key finds the input's value, as is when JSON-encodable, else as `str(v)` |
| `IngestApi.PrecoPrefixIsPriceKey` | api-produtos/ingest_api.py:145-147 | a key starting with `preco` in any letter case is dropped |
| `IngestApi.PriceInsideIsPriceKey` | api-produtos/ingest_api.py:145-147 | a key holding `price` in any letter case at any position is dropped |
| `IngestApi.SalePriceKeyExample` | api-produtos/ingest_api.py:146-147 | `preco_venda` is a price key |
| `IngestApi.EmbeddedPriceKeyExample` | api-produtos/ingest_api.py:145-147 | `unit_Price` is a price key: the match ignores case and finds `price` inside the key |
| `IngestApi.FilterRawPayload` | api-produtos/ingest_api.py:137-154 | the key loop builds exactly `ScrubPrices` of the input |
| `IngestApi.MapItemToRow` | api-produtos/ingest_api.py:157-195 | no row exactly when the normalised `codigo_produto` is missing or is empty once its dots are removed and it is stripped; otherwise the SKU is that string, non-empty and dot-free, and `raw` is exactly the price-scrubbed payload (`ScrubPrices`), so it holds no price key |
| `IngestApi.DotsOnlyCodeRejected` | api-produtos/ingest_api.py:169-173 | a code made only of dots gives an empty SKU |
| `IngestApi.RemoveDotsBetween` | api-produtos/ingest_api.py:171 | `replace(".", "")` deletes the dots between dot-free groups and joins the groups |
| `IngestApi.RemoveDotsExample` | api-produtos/ingest_api.py:171 | `"12.345.6"` without its dots is `"123456"` |
| `IngestApi.SkuExample` | api-produtos/ingest_api.py:169-173 | the SKU of `"12.345.6"` is `"123456"` |
| `IngestApi.Connection.constructor` | api-produtos/ingest_api.py:221-223 | a fresh connection: nothing stored, written, committed or analysed |
| `IngestApi.Connection.UpsertProduct` | api-produtos/ingest_api.py:251 | inserts or replaces the row under its SKU, counts one upsert, returns the product's identifier, changes nothing else |
| `IngestApi.Connection.InsertChunks` | api-produtos/ingest_api.py:266 | appends one chunk batch for the product, changes nothing else |
| `IngestApi.Connection.Commit` | api-produtos/ingest_api.py:275 | records a commit at the current upsert count, changes nothing else |
| `IngestApi.Connection.Analyze` | api-produtos/ingest_api.py:281-282 | records the table analysed, changes nothing else |
| `IngestApi.AdmitKeepsCleanSkus` | api-produtos/ingest_api.py:234-237 | a mapper whose rows have non-empty dot-free SKUs admits only such rows, never more rows than items |
| `IngestApi.Admit` | api-produtos/ingest_api.py:234-237 | the loop's admission as a definition: each dict item mapped, rejected ones skipped, the first non-dict item raising; stated by `AdmittedCountsAccepted`, `AdmitStopsAtError` and `AdmitKeepsPrefix` |
| `IngestApi.AdmittedRowsWellFormed` | api-produtos/ingest_api.py:234-237 | every row that reaches the database has a non-empty SKU without dots |
| `IngestApi.AdmittedCountsAccepted` | api-produtos/ingest_api.py:234-252 | `upserted` counts exactly the items whose row is not None; rejected items are skipped uncounted |
| `IngestApi.AdmitStopsAtError` | api-produtos/ingest_api.py:234-235 | after an item that is not a dict raises, later items change nothing |
| `IngestApi.AdmitKeepsPrefix` | api-produtos/ingest_api.py:234-237 | more items only extend the admitted rows |
| `IngestApi.Written` | api-produtos/ingest_api.py:239-270 | the rows that reach `upsert_product`: none in a dry run, every admitted row when `commit_every != 0`, only the first admitted row when `commit_every == 0` (the modulus then raises); always a prefix of the admitted rows |
| `IngestApi.UpsertsIdempotent` | api-produtos/ingest_api.py:251 | upserting the same rows twice leaves the same products table as once |
| `IngestApi.ChunkTotalCountsBatches` | api-produtos/ingest_api.py:261-267 | one `insert_chunks` call per written row, in order, with that row's SKU and chunks |
| `IngestApi.ChunkTotalIsLogged` | api-produtos/ingest_api.py:261-267 | the running `chunks_ins` total over some rows is the number of chunks in their `insert_chunks` batches |
| `IngestApi.CommitPointsSpec` | api-produtos/ingest_api.py:269-275 | in-loop commits follow exactly the written rows whose running count is a multiple of `commit_every`, in increasing order |
| `IngestApi.IngestOutcome` | api-produtos/ingest_api.py:234-299 | a run raises exactly when `commit_every == 0` meets a written row, an item is not a dict, or a page fails, in that priority; otherwise it returns `upserted` = the number of admitted rows and `chunks_ins` = 0 in a dry run, else `ChunkTotal` of the admitted rows |
| `IngestApi.SyncedMeaning` | api-produtos/ingest_api.py:234-275 | writing rows upserts them in order, logs their chunk batches, counts one upsert each, commits after every `commit_every`-th row and analyses nothing |
| `IngestApi.IngestStateMeaning` | api-produtos/ingest_api.py:234-284 | the final state: the written rows upserted, their chunks logged, the in-loop commits, and for a finished run two `ANALYZE`s and one final commit |
| `IngestApi.ReportedChunksAreLogged` | api-produtos/ingest_api.py:254-299 | the `chunks_ins` a successful run returns is exactly the number of chunks it added to the chunk log |
| `IngestApi.IngestFromApi` | api-produtos/ingest_api.py:198-299 | the counts returned or the error raised, and the new database state, are `IngestOutcome` and `IngestState` of the pages walked and the rows admitted; the final `ANALYZE`s and commit only in a successful non-dry run |
| `IngestApi.IngestItems` | api-produtos/ingest_api.py:234-275 | the item loop returns or raises `IngestOutcome` and leaves the state `Synced` with the rows written |
| `IngestApi.StoreRow` | api-produtos/ingest_api.py:251-275 | one written row: upsert, chunks, `chunks_ins` grows by their number, and a commit when `batch_count` is a multiple of `commit_every` |
| `IngestApi.WriteRow` | api-produtos/ingest_api.py:251-267 | upserts the row and inserts its chunks; returns how many chunks were inserted |
| `IngestApi.ZeroIntervalEnds` | api-produtos/ingest_api.py:269-270 | with `commit_every == 0` the run raises at the first written row, which is the first admitted row |
| `IngestApi.AdmitNext` | api-produtos/ingest_api.py:234-237 | the next item is mapped, skipped or, when not a dict, raises and ends the admission |
| `IngestApi.AdmitNonDictEnds` | api-produtos/ingest_api.py:234-235 | an item that is not a dict ends the admission with that error, keeping the rows before it |
| `PyValues.Get` | api-produtos/ingest_api.py:169 | `d.get(k)` finds a value exactly when the key is present, and returns a field of the dict |
| `PyValues.Strip` | api-produtos/ingest_api.py:171 | `strip()` leaves no white space at either end and adds no character |
| `PyValues.StripIsTrim` | api-produtos/ingest_api.py:171 | `strip()` returns the piece `s[i..j]` of its input with only white space before `i` and after `j` |
| `PyValues.StripUnpadded` | api-produtos/ingest_api.py:171 | a string without white space at its ends is its own `strip()` |
| `PyValues.RemoveChar` | api-produtos/ingest_api.py:171 | `replace(c, "")` removes every `c` and keeps every other character |
| `PyValues.Lower` | api-produtos/ingest_api.py:145 | `lower()` keeps the length and lower-cases each ASCII capital |
| `PyValues.PyInt` | api-produtos/image_checker.py:322 | `int()` of an int is itself, of a bool 0 or 1, and raises for None, a list or a dict |
| `PyValues.ParseInt` | api-produtos/image_checker.py:322 | `int()` of a string as a definition: surrounding white space, an optional sign and at least one decimal digit, else the `ValueError` (`None`) |
| `ImageChecker.CacheKey` | api-produtos/image_checker.py:96 | the key is `best_image_for_` followed by the product id |
| `ImageChecker.CacheKeyInjective` | api-produtos/image_checker.py:96 | different products never share a key |
| `ImageChecker.CachedValue` | api-produtos/image_checker.py:80-100 | `get_cached_image` returns a value exactly when the cache is available and the key exists, and then the stored value |
| `ImageChecker.AfterSet` | api-produtos/image_checker.py:103-124 | `set_cached_image` writes the base64, or `"null"` for None, with the TTL under the product's key; an unavailable cache is unchanged |
| `ImageChecker.CacheRoundTrip` | api-produtos/image_checker.py:91-124 | after a set, a get returns the base64 written, or `"null"` for None; an unavailable cache reads None, never the marker |
| `ImageChecker.SetLeavesOtherProducts` | api-produtos/image_checker.py:119-121 | writing one product's entry does not change what another product reads |
| `ImageChecker.ImageCache.constructor` | api-produtos/image_checker.py:57-77 | an empty cache, reachable or not |
| `ImageChecker.ImageCache.GetCachedImage` | api-produtos/image_checker.py:80-100 | None when unavailable; otherwise the value exactly when the key is present |
| `ImageChecker.ImageCache.SetCachedImage` | api-produtos/image_checker.py:103-124 | true exactly when the cache is available, with the product's entry then set to the stored value and the default TTL; false leaves the entries unchanged |
| `ImageChecker.ImageCache.CheckImageExists` | api-produtos/image_checker.py:354-441 | the answer, the interactions in order and the cache left behind are those of `SelectorRun` |
| `ImageChecker.ImageCache.ResolveMiss` | api-produtos/image_checker.py:384-441 | the miss path does what `AfterMiss` says: the marker when there are no images, `Raised` when a base64 is not a string, else the model's verdict |
| `ImageChecker.ImageCache.RecordVerdict` | api-produtos/image_checker.py:401-441 | a failed model call or an index that names no image writes the marker; a valid index writes the chosen base64 and answers from the re-read |
| `ImageChecker.ValidImages` | api-produtos/image_checker.py:165-169 | the filter never returns more entries than it was given |
| `ImageChecker.ValidImagesAppend` | api-produtos/image_checker.py:165-169 | the filter keeps order: the kept entries of `a + b` are those of `a` followed by those of `b` |
| `ImageChecker.ValidImagesSingle` | api-produtos/image_checker.py:166-168 | an entry is kept exactly when it is a dict with a truthy `base64` |
| `ImageChecker.ValidImagesSound` | api-produtos/image_checker.py:165-168 | every kept base64 is truthy and is the `base64` of some valid input entry |
| `ImageChecker.FetchResult` | api-produtos/image_checker.py:151-186 | `ok` exactly when the request succeeds with a dict whose `images` is a non-empty list; then the images are the valid entries in order, otherwise `[]` with an error |
| `ImageChecker.FetchProductImages` | api-produtos/image_checker.py:131-186 | the request, the checks and the filtering loop give exactly `FetchResult` |
| `ImageChecker.StripLineBreaks` | api-produtos/image_checker.py:219 | the result holds no CR and no LF and is no longer than the input |
| `ImageChecker.StripLineBreaksRemovesAll` | api-produtos/image_checker.py:219 | the line-break substitution removes every CR and every LF and nothing else |
| `ImageChecker.ImageParts` | api-produtos/image_checker.py:215-225 | one `image_url` entry per image |
| `ImageChecker.ImagePartsAt` | api-produtos/image_checker.py:215-225 | entry k is the k-th image's base64 without line breaks |
| `ImageChecker.PayloadFor` | api-produtos/image_checker.py:193-263 | `prepare_openrouter_payload` as a definition: `TypeError` when some base64 is not a string, else the instruction and the image urls under the model, role and schema; stated by `PayloadShape` |
| `ImageChecker.PayloadShape` | api-produtos/image_checker.py:215-228 | the call raises exactly when some base64 is not a string; otherwise the content has length `1 + n`, the instruction first, then each image's url, in order, free of CR and LF |
| `ImageChecker.PrepareOpenrouterPayload` | api-produtos/image_checker.py:193-263 | the loop builds exactly `PayloadFor` of the images, with the model, the user role and the strict schema |
| `ImageChecker.MessageContent` | api-produtos/image_checker.py:296-312 | the content of the first choice's message, when `choices` is a non-empty list of dicts and `message` a dict, with a missing `content` as `""`; used by `CallOpenrouter`'s contract |
| `ImageChecker.CallOpenrouter` | api-produtos/image_checker.py:266-347 | ok exactly when the reply is a 2xx/3xx answer with a body whose first choice holds a non-empty string message that parses to a dict whose `best_image_index` is null or converts with `int()`; then the index is that integer (None for null) and `justification` defaults to `""`; every other reply gives the all-failed result |
| `ImageChecker.EmptyChoicesOrContentFails` | api-produtos/image_checker.py:296-312 | missing or empty `choices`, or an empty message, gives a result that is not ok |
| `ImageChecker.InterpretIndex` | api-produtos/image_checker.py:409-427 | an index names an image exactly when it is present, not `932042349`, and in `[0, n)` |
| `ImageChecker.SelectorRun` | api-produtos/image_checker.py:354-441 | `check_image_exists` as a definition: a cached value answers at once, a miss goes to `AfterMiss`; stated by the selector lemmas below and matched by `ImageCache.CheckImageExists` |
| `ImageChecker.AfterMiss` | api-produtos/image_checker.py:384-441 | the miss path as a definition: the marker for a failed fetch or no images, `Raised` when a base64 is not a string, else `Verdict` on the model's answer |
| `ImageChecker.Verdict` | api-produtos/image_checker.py:401-441 | the verdict as a definition: the marker for a failed call or an index that names no image; else the chosen base64 written and `imageExists` taken from the re-read |
| `ImageChecker.CacheHitShortCircuits` | api-produtos/image_checker.py:374-382 | a cached value answers `cached != "null" && cached != ""` after only the cache read, writing nothing |
| `ImageChecker.NoImagesMarksProduct` | api-produtos/image_checker.py:385-393 | a failed fetch or no images writes the marker once and answers false; the model is not called |
| `ImageChecker.RejectedVerdictMarksProduct` | api-produtos/image_checker.py:398-427 | a failed model call, a missing index, `932042349` or an index outside `[0, n)` writes the marker once and answers false |
| `ImageChecker.ChosenImageStored` | api-produtos/image_checker.py:429-441 | a valid index writes the chosen base64 and re-reads it; `imageExists` is the cache being available and the base64 being neither the marker nor empty |
| `ImageChecker.AnswerNamesProduct` | api-produtos/image_checker.py:354-441 | every answer carries `IdProduto` equal to the product asked about |
| `ImageChecker.OnlyOwnKeyWritten` | api-produtos/image_checker.py:354-441 | the selector changes no cache entry but the product's own |
| `ImageChecker.RaisesOnlyOnNonStringBase64` | api-produtos/image_checker.py:216-219 | the selector raises exactly on a miss whose fetched images include a base64 that is not a string |
| `ImageChecker.AnswerAgreesWithCache` | api-produtos/image_checker.py:431-436 | on an available cache the answer agrees with the entry left behind; on an unavailable one it is false |
| `ImageChecker.SecondCallHitsCache` | api-produtos/image_checker.py:373-382 | after an answer on an available cache, asking again is a cache hit with the same answer, whatever the services would say |

## Left out

- HTTP transport: `requests.get`/`post`, headers, query parameters, timeouts
  and `resp.text`. An answer is a status plus an optional decoded body; a body
  that does not decode is `None`.
- `_headers()` raising `RuntimeError` when `X_COPAFER_KEY` is unset, and all
  other configuration read from the environment (URLs, keys, model name, page
  size, TTL). The constants are the defaults the code gives.
- `time.sleep`: `IngestApi.FetchPage` returns the pauses it would take, in
  milliseconds, instead of sleeping. `datetime`, `tqdm`, every `verbose`
  message and the throughput rates (floating point) are left out.
- The `ingest_csv` helpers are uninterpreted functions: `norm_str`,
  `parse_decimal_br`, `build_product_text` and `chunk_by_tokens`.
  `connect_db` is the `Connection` class. `upsert_product` inserts or replaces
  the row keyed by its SKU and returns that SKU as the product identifier.
  The database's own behaviour is not part of this model.
- What leaving the `with connect_db()` block does with uncommitted work on an
  exception or at the end (commit, rollback, close) is not modelled. It
  depends on `connect_db`, which is not part of this model. The model records
  only the explicit `commit()` calls.
- `json.dumps`: whether a value encodes is the predicate `PyValues.Encodable`,
  and `Row.raw` holds the filtered dict rather than its JSON text.
- `ANALYZE` is recorded only as the table names analysed.
- The generator's interleaving of page fetches with row writes. The model
  collects the pages' items first and then runs the writing loop. An error
  while fetching a page comes after every item before it has been written, so
  the raised error and the final state are the same.
- `IngestApi.VisitPage`: reusing the first payload instead of fetching page
  `start_page` again is visible in its body but not in its contract. The
  oracle would answer a second fetch in the same way.
- `IngestApi.ReadTotals`: its contract states how `totalPages` is read. The
  informational `total` is read too, and can raise, but only logging uses
  it.
- The Redis client: its construction, `ping`, socket errors, and the fresh
  client each call makes. Unreachable and failing servers are folded into
  one `available` flag, fixed for a whole selector run. TTL expiry over time
  is not modelled; the TTL is only recorded with the entry.
- The error message strings. Each error is a constructor
  (`IngestError`, `FetchFailure`); `call_openrouter`'s message is dropped
  because nothing reads it.
- `PyValues.PyInt`: integers, booleans and decimal strings only. There are no
  floats in the value model, so `int()` truncating a float index is left out.
- `PyValues.Lower`, `PyValues.Strip`: ASCII letters and ASCII white space
  only; Unicode case mapping and Unicode white space are left out.
- The pydantic request/response classes: the response is the two-field
  datatype `ImageCheckResponse`.
- `main`, the command-line parsing and the final JSON print.
