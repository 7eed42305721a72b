/**
 * Paginated catalog ingestion (api-produtos/ingest_api.py): a single-page
 * fetch with bounded retry on server errors, a page-window walk that learns
 * `totalPages` from the first answer, the item-list extractor, the record
 * mapper with its SKU gate and price scrubbing, and the orchestrator that
 * upserts rows, inserts chunks and decides when to commit.
 *
 * The catalog API is an oracle: `catalog(page)(attempt)` is the answer the
 * server gives to the `attempt`-th request for `page`. The database is the
 * `Connection` class; the helpers imported from `ingest_csv` are the fields
 * of `Collaborators`.
 */
module IngestApi {
  import opened Wrappers
  import opened PyValues
  import opened Http
  import opened Seqs

  // ------------------------------------------------------------------
  // fetch_page
  // ------------------------------------------------------------------

  /** What an ingestion run can raise. */
  datatype IngestError =
    | HttpError(status: int)   // raise_for_status on a 4xx/5xx answer
    | NotJson(status: int)     // the RuntimeError for a body that is not JSON
    | NotADict                 // `.get` on a payload or item that is not a dict
    | NotAnInt                 // `int()` of `totalPages` or `total` failed
    | ZeroCommitInterval       // `batch_count % commit_every` with commit_every == 0

  /** `raise_for_status()` followed by `json()`. */
  function Decode(resp: Response): (r: Result<Value, IngestError>)
    ensures r.Success? <==> IsOk(resp.status) && resp.body.Some?
    ensures r.Success? ==> r.value == resp.body.value
    ensures !IsOk(resp.status) ==> r == Failure(HttpError(resp.status))
  {
    if !IsOk(resp.status) then Failure(HttpError(resp.status))
    else match resp.body
      case None => Failure(NotJson(resp.status))
      case Some(v) => Success(v)
  }

  const MaxRetries: nat := 3

  /** The pause before retry `i` (0-based), in milliseconds: 1.5 s, doubled
      for each further retry. */
  function BackoffMs(i: nat): nat
  {
    if i == 0 then 1500 else 2 * BackoffMs(i - 1)
  }

  /** Closed form of the number of requests `fetch_page` issues: one unless
      the first status is 5xx or above, then one retry more for every answer
      that is not ok, three retries at most. */
  function Attempts(answer: nat -> Response): nat
  {
    if answer(0).status < 500 then 1
    else if IsOk(answer(1).status) then 2
    else if IsOk(answer(2).status) then 3
    else 4
  }

  /** What `fetch_page` returns or raises against `answer`. */
  function FetchResult(answer: nat -> Response): Result<Value, IngestError>
  {
    Decode(answer(Attempts(answer) - 1))
  }

  /** `fetch_page`: `answer(k)` is the server's answer to the k-th request.
      Also returns how many requests were made and the pauses taken. */
  method FetchPage(answer: nat -> Response) returns (r: Result<Value, IngestError>, attempts: nat, delaysMs: seq<nat>)
    ensures 1 <= attempts <= 1 + MaxRetries
    ensures attempts == 1 <==> answer(0).status < 500
    ensures forall j :: 1 <= j < attempts - 1 ==> !IsOk(answer(j).status)
    ensures 1 < attempts < 1 + MaxRetries ==> IsOk(answer(attempts - 1).status)
    ensures delaysMs == [1500, 3000, 6000][..attempts - 1]
    ensures r == Decode(answer(attempts - 1))
    ensures attempts == Attempts(answer)
  {
    var resp := answer(0);
    attempts := 1;
    delaysMs := [];
    if resp.status >= 500 {
      for i := 0 to MaxRetries
        invariant attempts == i + 1
        invariant resp == answer(i)
        invariant delaysMs == [1500, 3000, 6000][..i]
        invariant forall j :: 1 <= j <= i ==> !IsOk(answer(j).status)
      {
        delaysMs := delaysMs + [BackoffMs(i)];
        resp := answer(i + 1);
        attempts := attempts + 1;
        if IsOk(resp.status) {
          break;
        }
      }
    }
    r := Decode(resp);
  }

  /** The server keeps failing with 503 three times and then answers 200. */
  function RecoveringServer(body: Value): nat -> Response
  {
    (k: nat) => if k < 3 then Response(503, Some(body)) else Response(200, Some(body))
  }

  /** Three 503 answers followed by a 200: success after exactly three retries. */
  lemma RetryRecoversAfterThreeRetries(body: Value)
    ensures Attempts(RecoveringServer(body)) == 4
    ensures FetchResult(RecoveringServer(body)) == Success(body)
  {
  }

  /** 503 for ever: a fatal HTTP error after four requests. */
  lemma RetryGivesUpAfterFourRequests(body: Value)
    ensures Attempts((k: nat) => Response(503, Some(body))) == 4
    ensures FetchResult((k: nat) => Response(503, Some(body))) == Failure(HttpError(503))
  {
  }

  // ------------------------------------------------------------------
  // iter_all_items and its inner extract_items
  // ------------------------------------------------------------------

  /** `int(p.get(key) or dflt)`. */
  function IntFieldOr(p: seq<Field>, key: string, dflt: int): (r: Result<int, IngestError>)
    ensures Get(p, key).None? ==> r == Success(dflt)
    ensures Get(p, key).Some? && !Truthy(Get(p, key).value) ==> r == Success(dflt)
    ensures Get(p, key).Some? && Get(p, key).value.Int? && Get(p, key).value.i != 0 ==>
              r == Success(Get(p, key).value.i)
  {
    match Get(p, key)
    case None => Success(dflt)
    case Some(v) =>
      if !Truthy(v) then Success(dflt)
      else match PyInt(v)
        case Some(n) => Success(n)
        case None => Failure(NotAnInt)
  }

  /** The counters read from the first page: `totalPages` (default 1) and the
      informational `total` (default 0). */
  datatype Totals = Totals(totalPages: int, totalItems: int)

  function ReadTotals(payload: Value): (r: Result<Totals, IngestError>)
    ensures r.Success? ==> payload.Dict?
    ensures payload.Dict? && IntFieldOr(payload.fields, "totalPages", 1).Success? ==>
              (r.Failure? || r.value.totalPages == IntFieldOr(payload.fields, "totalPages", 1).value)
  {
    if !payload.Dict? then Failure(NotADict)
    else match IntFieldOr(payload.fields, "totalPages", 1)
      case Failure(e) => Failure(e)
      case Success(pages) =>
        match IntFieldOr(payload.fields, "total", 0)
        case Failure(e) => Failure(e)
        case Success(items) => Success(Totals(pages, items))
  }

  /** `p[key]` when it is a list. */
  function ListAt(p: seq<Field>, key: string): Option<seq<Value>>
  {
    match Get(p, key)
    case Some(List(xs)) => Some(xs)
    case _ => None
  }

  /** A container field: a list itself, or a dict holding a list under `items`. */
  function ContainerItems(p: seq<Field>, key: string): Option<seq<Value>>
  {
    match Get(p, key)
    case Some(List(xs)) => Some(xs)
    case Some(Dict(inner)) => ListAt(inner, "items")
    case _ => None
  }

  const ContainerKeys: seq<string> := ["data", "results", "content"]

  /** The `for key in ("data", "results", "content")` search, with its breaks. */
  function SearchContainers(p: seq<Field>, keys: seq<string>): Option<seq<Value>>
  {
    if keys == [] then None
    else match ContainerItems(p, keys[0])
      case Some(xs) => Some(xs)
      case None => SearchContainers(p, keys[1..])
  }

  /** `extract_items`: the item list of one page, `[]` when there is none. */
  function ExtractItems(p: seq<Field>): seq<Value>
  {
    match ListAt(p, "produtos")
    case Some(xs) => xs
    case None =>
      match ListAt(p, "items")
      case Some(xs) => xs
      case None =>
        match SearchContainers(p, ContainerKeys)
        case Some(xs) => xs
        case None => []
  }

  /** The first candidate that is present, or the empty list. */
  function FirstFound(candidates: seq<Option<seq<Value>>>): seq<Value>
  {
    if candidates == [] then []
    else if candidates[0].Some? then candidates[0].value
    else FirstFound(candidates[1..])
  }

  /** The lookup order of `extract_items`, as one flat priority list. */
  lemma ExtractItemsPriority(p: seq<Field>)
    ensures ExtractItems(p) == FirstFound([ListAt(p, "produtos"), ListAt(p, "items"),
                                           ContainerItems(p, "data"), ContainerItems(p, "results"),
                                           ContainerItems(p, "content")])
  {
    var d, r, c := ContainerItems(p, "data"), ContainerItems(p, "results"), ContainerItems(p, "content");
    var cs := [ListAt(p, "produtos"), ListAt(p, "items"), d, r, c];
    assert cs[1..] == [ListAt(p, "items"), d, r, c];
    assert cs[1..][1..] == [d, r, c];
    assert cs[1..][1..][1..] == [r, c];
    assert cs[1..][1..][1..][1..] == [c];
    assert cs[1..][1..][1..][1..][1..] == [];
    assert FirstFound([c]) == (if c.Some? then c.value else []) by { assert [c][1..] == []; }
    assert FirstFound([r, c]) == (if r.Some? then r.value else FirstFound([c])) by { assert [r, c][1..] == [c]; }
    assert FirstFound([d, r, c]) == (if d.Some? then d.value else FirstFound([r, c])) by { assert [d, r, c][1..] == [r, c]; }
    var keys := ContainerKeys;
    assert keys[0] == "data" && keys[1..] == ["results", "content"];
    assert keys[1..][0] == "results" && keys[1..][1..] == ["content"];
    assert keys[1..][1..][0] == "content" && keys[1..][1..][1..] == [];
    assert SearchContainers(p, keys[1..][1..][1..]) == None;
    assert SearchContainers(p, keys[1..][1..]) == (if c.Some? then c else None);
    assert SearchContainers(p, keys[1..]) == (if r.Some? then r else if c.Some? then c else None);
    assert SearchContainers(p, keys) == (if d.Some? then d else if r.Some? then r else if c.Some? then c else None);
  }

  /** The items of one fetched page; a payload that is not a dict raises. */
  function PageItems(payload: Value): Result<seq<Value>, IngestError>
  {
    if payload.Dict? then Success(ExtractItems(payload.fields)) else Failure(NotADict)
  }

  /** The stopping rule checked after each page: the page cap is reached, or
      the next page number is past `total`. */
  predicate StopsAfter(start: int, total: int, limit: Option<int>, k: nat)
  {
    (limit.Some? && k >= limit.value) || start + k > total
  }

  /** How many pages `iter_all_items` processes: the first k >= 1 after which
      it stops. */
  function PageCount(start: int, total: int, limit: Option<int>): (n: nat)
    ensures n >= 1
    ensures StopsAfter(start, total, limit, n)
  {
    var byTotal := if total - start + 1 >= 1 then total - start + 1 else 1;
    match limit
    case None => byTotal
    case Some(l) => if l < byTotal then (if l >= 1 then l else 1) else byTotal
  }

  /** `PageCount` is the first stop: the loop never stops after fewer pages. */
  lemma PageCountIsFirstStop(start: int, total: int, limit: Option<int>, k: nat)
    requires 1 <= k <= PageCount(start, total, limit)
    requires StopsAfter(start, total, limit, k)
    ensures k == PageCount(start, total, limit)
  {
  }

  /** The pages `start, start + 1, ..., start + n - 1`. */
  function Window(start: int, n: nat): (w: seq<int>)
    ensures |w| == n
    ensures forall k :: 0 <= k < n ==> w[k] == start + k
  {
    seq(n, k => start + k)
  }

  /** What a walk over some pages produced: the items yielded, the pages
      requested, and the error that ended it early, if any. */
  datatype PageRun = PageRun(items: seq<Value>, requested: seq<int>, error: Option<IngestError>)

  /** Walk `pages` in order, fetching each one and yielding its items in array
      order; the first fetch or extraction error ends the walk. */
  function WalkPages(step: PageFetcher, pages: seq<int>): PageRun
  {
    if pages == [] then PageRun([], [], None)
    else match step(pages[0])
      case Failure(e) => PageRun([], [pages[0]], Some(e))
      case Success(xs) =>
        var rest := WalkPages(step, pages[1..]);
        PageRun(xs + rest.items, [pages[0]] + rest.requested, rest.error)
  }

  /** Fetching one page and extracting its items, or the error raised. */
  type PageFetcher = int -> Result<seq<Value>, IngestError>

  function PageStep(catalog: int -> (nat -> Response), page: int): Result<seq<Value>, IngestError>
  {
    match FetchResult(catalog(page))
    case Failure(e) => Failure(e)
    case Success(payload) => PageItems(payload)
  }

  function Fetcher(catalog: int -> (nat -> Response)): PageFetcher
  {
    page => PageStep(catalog, page)
  }

  /** `step` fetches and extracts pages exactly as `catalog` serves them. The
      trigger keeps the fetch logic out of sight until a page is fetched. */
  ghost predicate Serves(catalog: int -> (nat -> Response), step: PageFetcher)
  {
    forall p {:trigger PageStep(catalog, p)} :: step(p) == PageStep(catalog, p)
  }

  lemma FetcherServes(catalog: int -> (nat -> Response))
    ensures Serves(catalog, Fetcher(catalog))
  {
  }

  /** `iter_all_items`: the first page tells the page count, and the window
      from `start` of that many pages is walked. */
  function IterSpec(catalog: int -> (nat -> Response), start: int, limit: Option<int>): PageRun
  {
    match FetchResult(catalog(start))
    case Failure(e) => PageRun([], [start], Some(e))
    case Success(payload) =>
      match ReadTotals(payload)
      case Failure(e) => PageRun([], [start], Some(e))
      case Success(t) => WalkPages(Fetcher(catalog), Window(start, PageCount(start, t.totalPages, limit)))
  }

  lemma {:induction false} WalkPagesSnoc(step: PageFetcher, pages: seq<int>, p: int)
    requires WalkPages(step, pages).error.None?
    ensures var a := WalkPages(step, pages);
            var b := WalkPages(step, [p]);
            WalkPages(step, pages + [p]) == PageRun(a.items + b.items, a.requested + b.requested, b.error)
  {
    if pages != [] {
      assert (pages + [p])[1..] == pages[1..] + [p];
      WalkPagesSnoc(step, pages[1..], p);
    }
  }

  lemma {:induction false} WalkPagesStopsAtError(step: PageFetcher, pages: seq<int>, more: seq<int>)
    requires WalkPages(step, pages).error.Some?
    ensures WalkPages(step, pages + more) == WalkPages(step, pages)
  {
    assert pages != [];
    assert (pages + more)[0] == pages[0];
    assert (pages + more)[1..] == pages[1..] + more;
    if step(pages[0]).Success? {
      WalkPagesStopsAtError(step, pages[1..], more);
    }
  }

  /** A walk requests its pages in order, once each, and only stops short of
      the last one at an error, which is then raised by the last page it
      requested. */
  lemma {:induction false} WalkPagesRequests(step: PageFetcher, pages: seq<int>)
    ensures var run := WalkPages(step, pages);
            && run.requested <= pages
            && (run.error.None? ==> run.requested == pages)
            && (run.error.Some? ==> run.requested != [])
  {
    if pages != [] {
      WalkPagesRequests(step, pages[1..]);
      assert pages == [pages[0]] + pages[1..];
    }
  }

  /** `iter_all_items` always terminates, and visits the pages `start`,
      `start + 1`, ... in order, at least one and never more than the cap. */
  lemma IterVisitsConsecutivePages(catalog: int -> (nat -> Response), start: int, limit: Option<int>)
    ensures var run := IterSpec(catalog, start, limit);
            && |run.requested| >= 1
            && run.requested[0] == start
            && (forall k :: 0 <= k < |run.requested| ==> run.requested[k] == start + k)
            && (limit.Some? && limit.value >= 1 ==> |run.requested| <= limit.value)
  {
    match FetchResult(catalog(start))
    case Failure(_) =>
    case Success(payload) =>
      match ReadTotals(payload)
      case Failure(_) =>
      case Success(t) =>
        var w := Window(start, PageCount(start, t.totalPages, limit));
        WalkPagesRequests(Fetcher(catalog), w);
  }

  /** When the first page reports `total` pages and no page fails, exactly
      the `PageCount` pages of the window are requested. */
  lemma IterRequestsWholeWindow(catalog: int -> (nat -> Response), start: int, limit: Option<int>)
    requires FetchResult(catalog(start)).Success?
    requires ReadTotals(FetchResult(catalog(start)).value).Success?
    ensures var total := ReadTotals(FetchResult(catalog(start)).value).value.totalPages;
            var run := IterSpec(catalog, start, limit);
            run.error.None? ==> run.requested == Window(start, PageCount(start, total, limit))
  {
    var total := ReadTotals(FetchResult(catalog(start)).value).value.totalPages;
    WalkPagesRequests(Fetcher(catalog), Window(start, PageCount(start, total, limit)));
  }

  /** The page whose fetch answers `Success(Dict(fields))` at the first try. */
  predicate ServesPage(catalog: int -> (nat -> Response), page: int, fields: seq<Field>)
  {
    FetchResult(catalog(page)) == Success(Dict(fields))
  }

  /** `totalPages = 3` and no cap: pages 1, 2 and 3 are visited; an empty
      page 2 contributes nothing and the walk goes on to page 3. */
  lemma ThreePagesWithEmptyMiddle(catalog: int -> (nat -> Response), p1: seq<Field>, p2: seq<Field>, p3: seq<Field>)
    requires ServesPage(catalog, 1, p1) && ServesPage(catalog, 2, p2) && ServesPage(catalog, 3, p3)
    requires Get(p1, "totalPages") == Some(Int(3)) && Get(p1, "total").None?
    requires ExtractItems(p2) == []
    ensures IterSpec(catalog, 1, None) == PageRun(ExtractItems(p1) + ExtractItems(p3), [1, 2, 3], None)
  {
    assert ReadTotals(Dict(p1)) == Success(Totals(3, 0));
    assert PageCount(1, 3, None) == 3;
    var f := Fetcher(catalog);
    assert f(1) == Success(ExtractItems(p1));
    assert f(2) == Success([]);
    assert f(3) == Success(ExtractItems(p3));
    WalkThreePages(f, ExtractItems(p1), ExtractItems(p3));
  }

  /** Three pages whose middle one yields nothing: the walk goes on past it. */
  lemma WalkThreePages(step: PageFetcher, xs: seq<Value>, zs: seq<Value>)
    requires step(1) == Success(xs) && step(2) == Success([]) && step(3) == Success(zs)
    ensures WalkPages(step, Window(1, 3)) == PageRun(xs + zs, [1, 2, 3], None)
  {
    WindowOneToThree();
    var last := WalkPages(step, [3]);
    WalkConsOk(step, 3, [], zs);
    assert last == PageRun(zs, [3], None);
    WalkConsOk(step, 2, [3], []);
    assert [2] + [3] == [2, 3];
    assert WalkPages(step, [2, 3]) == PageRun(zs, [2, 3], None);
    WalkConsOk(step, 1, [2, 3], xs);
    assert [1] + [2, 3] == [1, 2, 3];
  }

  lemma WindowOneToThree()
    ensures Window(1, 3) == [1, 2, 3]
  {
  }

  /** A page that yields `xs` puts them before the walk of the pages after it. */
  lemma WalkConsOk(step: PageFetcher, p: int, rest: seq<int>, xs: seq<Value>)
    requires step(p) == Success(xs)
    ensures WalkPages(step, [p] + rest) == Continue(xs, [p], WalkPages(step, rest))
  {
    assert ([p] + rest)[1..] == rest;
  }

  /** A walk that has already produced `items` over the pages `requested`
      and goes on with `rest`. */
  function Continue(items: seq<Value>, requested: seq<int>, rest: PageRun): PageRun
  {
    PageRun(items + rest.items, requested + rest.requested, rest.error)
  }

  lemma ContinueAssoc(items: seq<Value>, requested: seq<int>, xs: seq<Value>, pages: seq<int>, rest: PageRun)
    ensures Continue(items, requested, Continue(xs, pages, rest))
            == Continue(items + xs, requested + pages, rest)
  {
    assert items + (xs + rest.items) == items + xs + rest.items;
    assert requested + (pages + rest.requested) == requested + pages + rest.requested;
  }

  lemma ContinueEmpty(items: seq<Value>, requested: seq<int>, rest: PageRun)
    requires rest == PageRun([], [], None)
    ensures Continue(items, requested, rest) == PageRun(items, requested, None)
  {
    assert items + [] == items;
    assert requested + [] == requested;
  }

  lemma WindowCons(p: int, n: nat)
    ensures Window(p, n + 1) == [p] + Window(p + 1, n)
  {
    var w, v := Window(p, n + 1), [p] + Window(p + 1, n);
    assert |w| == |v|;
    forall k | 0 <= k < |w|
      ensures w[k] == v[k]
    {
      if k > 0 {
        assert v[k] == Window(p + 1, n)[k - 1];
      }
    }
  }

  /** The walk of `whole` has produced `items` over `requested` and goes on
      from page `at` with `left` pages to go; page `at` fails with `e`, which
      ends the walk. */
  lemma AdvanceFails(step: PageFetcher, whole: PageRun, items: seq<Value>, requested: seq<int>, at: int, left: nat, e: IngestError)
    requires left >= 1 && step(at) == Failure(e)
    requires whole == Continue(items, requested, WalkPages(step, Window(at, left)))
    ensures whole == PageRun(items, requested + [at], Some(e))
  {
    WindowCons(at, left - 1);
    assert items + [] == items;
  }

  /** As above, but page `at` yields `xs`: they join the items and the walk
      goes on from the next page. */
  lemma AdvanceOk(step: PageFetcher, whole: PageRun, items: seq<Value>, requested: seq<int>, at: int, left: nat, xs: seq<Value>)
    requires left >= 1 && step(at) == Success(xs)
    requires whole == Continue(items, requested, WalkPages(step, Window(at, left)))
    ensures whole == Continue(items + xs, requested + [at], WalkPages(step, Window(at + 1, left - 1)))
  {
    var tail := Window(at + 1, left - 1);
    WindowCons(at, left - 1);
    assert ([at] + tail)[1..] == tail;
    ContinueAssoc(items, requested, xs, [at], WalkPages(step, tail));
  }

  /** With no page left to go, the walk is what has been produced. */
  lemma AdvanceEnd(step: PageFetcher, whole: PageRun, items: seq<Value>, requested: seq<int>, at: int)
    requires whole == Continue(items, requested, WalkPages(step, Window(at, 0)))
    ensures whole == PageRun(items, requested, None)
  {
    ContinueEmpty(items, requested, WalkPages(step, Window(at, 0)));
  }

  /** `iter_all_items`, with the generator's yields collected in order. */
  method IterAllItems(catalog: int -> (nat -> Response), startPage: int, limitPages: Option<int>) returns (run: PageRun)
    ensures run == IterSpec(catalog, startPage, limitPages)
  {
    var first, _, _ := FetchPage(catalog(startPage));
    if first.Failure? {
      return PageRun([], [startPage], Some(first.error));
    }
    var payload := first.value;
    var totals := ReadTotals(payload);
    if totals.Failure? {
      return PageRun([], [startPage], Some(totals.error));
    }
    FetcherServes(catalog);
    run := WalkWindow(catalog, Fetcher(catalog), startPage, payload, totals.value.totalPages, limitPages);
  }

  /** The page loop of `iter_all_items`, once the first page's `payload` has
      told `totalPages`: the first page is not fetched again. */
  method WalkWindow(catalog: int -> (nat -> Response), ghost step: PageFetcher, startPage: int, payload: Value,
                    totalPages: int, limitPages: Option<int>)
    returns (run: PageRun)
    requires Serves(catalog, step) && step(startPage) == PageItems(payload)
    ensures run == WalkPages(step, Window(startPage, PageCount(startPage, totalPages, limitPages)))
  {
    ghost var count := PageCount(startPage, totalPages, limitPages);
    ghost var whole := WalkPages(step, Window(startPage, count));

    var page := startPage;
    var processed: nat := 0;
    var items: seq<Value> := [];
    var requested: seq<int> := [];
    ghost var at, left := startPage, count;
    assert whole == Continue(items, requested, WalkPages(step, Window(at, left)));
    while true
      invariant processed < count && left == count - processed
      invariant page == startPage + processed && at == page
      invariant whole == Continue(items, requested, WalkPages(step, Window(at, left)))
      decreases count - processed
    {
      var got := VisitPage(catalog, step, startPage, payload, page);
      if got.Failure? {
        AdvanceFails(step, whole, items, requested, at, left, got.error);
        return PageRun(items, requested + [page], Some(got.error));
      }
      AdvanceOk(step, whole, items, requested, at, left, got.value);
      at, left := at + 1, left - 1;
      items := items + got.value;
      requested := requested + [page];
      processed := processed + 1;
      if limitPages.Some? && processed >= limitPages.value {
        break;
      }
      page := page + 1;
      if page > totalPages {
        break;
      }
    }
    PageCountIsFirstStop(startPage, totalPages, limitPages, processed);
    AdvanceEnd(step, whole, items, requested, at);
    run := PageRun(items, requested, None);
  }


  /** One turn of the page loop: the first page reuses `payload`, any other
      is fetched; a payload that is not a dict raises. */
  method VisitPage(catalog: int -> (nat -> Response), ghost step: PageFetcher, startPage: int, payload: Value, page: int)
    returns (r: Result<seq<Value>, IngestError>)
    requires Serves(catalog, step) && step(startPage) == PageItems(payload)
    ensures r == step(page)
  {
    var current: Value;
    if page == startPage {
      current := payload;
    } else {
      assert step(page) == PageStep(catalog, page);
      var fetched, _, _ := FetchPage(catalog(page));
      if fetched.Failure? {
        return Failure(fetched.error);
      }
      current := fetched.value;
    }
    if !current.Dict? {
      return Failure(NotADict);
    }
    r := Success(ExtractItems(current.fields));
  }

  // ------------------------------------------------------------------
  // filter_raw_payload and map_item_to_row
  // ------------------------------------------------------------------

  /** The helpers imported from `ingest_csv`, and `str()`. */
  datatype Collaborators = Collaborators(
    normStr: Option<Value> -> Option<string>,       // norm_str
    parseDecimalBr: Option<Value> -> Option<real>,  // parse_decimal_br
    str: Value -> string,                           // str()
    buildProductText: ProductText -> string,        // build_product_text
    chunkByTokens: string -> seq<string>)           // chunk_by_tokens

  /** A key whose lower-cased name mentions a price. */
  predicate IsPriceKey(k: string)
  {
    Contains(Lower(k), "preco") || Contains(Lower(k), "price")
  }

  /** A value kept as it is when `json.dumps` accepts it, else as `str(v)`. */
  function KeptValue(v: Value, str: Value -> string): Value
  {
    if Encodable(v) then v else Str(str(v))
  }

  /** The filtered payload: every field in order, minus the price keys. */
  function ScrubPrices(raw: seq<Field>, str: Value -> string): (out: seq<Field>)
    ensures |out| <= |raw|
    ensures forall i :: 0 <= i < |out| ==> !IsPriceKey(out[i].key)
  {
    if raw == [] then []
    else
      var last := raw[|raw| - 1];
      ScrubPrices(raw[..|raw| - 1], str)
        + (if IsPriceKey(last.key) then [] else [Field(last.key, KeptValue(last.value, str))])
  }

  lemma {:induction false} GetAppend(a: seq<Field>, b: seq<Field>, k: string)
    ensures Get(a + b, k) == if Get(a, k).Some? then Get(a, k) else Get(b, k)
  {
    if a == [] {
      assert a + b == b;
    } else {
      assert (a + b)[0] == a[0];
      assert (a + b)[1..] == a[1..] + b;
      GetAppend(a[1..], b, k);
    }
  }

  /** `filter_raw_payload` drops exactly the price keys: a lookup in the
      result finds nothing under a price key and the kept value of the input
      under any other key. */
  lemma {:induction false} ScrubPricesGet(raw: seq<Field>, str: Value -> string, k: string)
    ensures Get(ScrubPrices(raw, str), k) ==
            if IsPriceKey(k) then None
            else match Get(raw, k)
              case Some(v) => Some(KeptValue(v, str))
              case None => None
  {
    if raw != [] {
      var init, last := raw[..|raw| - 1], raw[|raw| - 1];
      assert raw == init + [last];
      ScrubPricesGet(init, str, k);
      GetAppend(init, [last], k);
      GetAppend(ScrubPrices(init, str),
                if IsPriceKey(last.key) then [] else [Field(last.key, KeptValue(last.value, str))], k);
    }
  }

  /** A key that starts, in any case, with "preco" is a price key. */
  lemma PrecoPrefixIsPriceKey(k: string)
    requires |k| >= 5
    requires forall i :: 0 <= i < 5 ==> LowerChar(k[i]) == "preco"[i]
    ensures IsPriceKey(k)
  {
    var lk := Lower(k);
    assert lk[..5] == "preco";
    assert "preco" <= lk[0..];
  }

  /** A sale-price key such as `preco_venda` is recognised. */
  lemma SalePriceKeyExample()
    ensures IsPriceKey("preco_venda")
  {
    PrecoPrefixIsPriceKey("preco_venda");
  }

  /** The match ignores case and looks anywhere in the key: `unit_Price`
      is a price key too. */
  lemma EmbeddedPriceKeyExample()
    ensures IsPriceKey("unit_Price")
  {
    var k := "unit_Price";
    assert k[5] == 'P' && k[6] == 'r' && k[7] == 'i' && k[8] == 'c' && k[9] == 'e';
    PriceInsideIsPriceKey(k, 5);
  }

  /** A key holding "price", in any case, from position `at` on is a price
      key. */
  lemma PriceInsideIsPriceKey(k: string, at: nat)
    requires at + 5 <= |k|
    requires forall i :: 0 <= i < 5 ==> LowerChar(k[at + i]) == "price"[i]
    ensures IsPriceKey(k)
  {
    var lk := Lower(k);
    assert lk[at..][..5] == "price";
    assert "price" <= lk[at..];
  }

  /** `filter_raw_payload`. */
  method FilterRawPayload(raw: seq<Field>, str: Value -> string) returns (out: seq<Field>)
    ensures out == ScrubPrices(raw, str)
  {
    out := [];
    for i := 0 to |raw|
      invariant out == ScrubPrices(raw[..i], str)
    {
      assert raw[..i + 1][..i] == raw[..i];
      var k, v := raw[i].key, raw[i].value;
      if IsPriceKey(k) {
        continue;
      }
      if Encodable(v) {
        out := out + [Field(k, v)];
      } else {
        out := out + [Field(k, Str(str(v)))];
      }
    }
    assert raw[..|raw|] == raw;
  }

  /** The row written to `rag.products`; `raw` is the filtered payload before
      it is serialised. */
  datatype Row = Row(
    sku: string,
    name: Option<string>,
    description: Option<string>,
    codigoBarras: Option<string>,
    tipo: Option<string>,
    um: Option<string>,
    qtdeCx: Option<string>,
    estoque: Option<real>,
    raw: seq<Field>)

  /** The SKU built from the normalised `codigo_produto`. */
  function SkuOf(code: Option<string>): string
  {
    match code
    case None => ""
    case Some(s) => if s != "" then Strip(RemoveChar(s, '.')) else s
  }

  /** `map_item_to_row`. */
  function MapItemToRow(it: seq<Field>, c: Collaborators): (r: Option<Row>)
    ensures var code := c.normStr(Get(it, "codigo_produto"));
            r.None? <==> code.None? || Strip(RemoveChar(code.value, '.')) == ""
    ensures r.Some? ==> r.value.sku == Strip(RemoveChar(c.normStr(Get(it, "codigo_produto")).value, '.'))
    ensures r.Some? ==> r.value.sku != "" && '.' !in r.value.sku
    ensures r.Some? ==> forall i :: 0 <= i < |r.value.raw| ==> !IsPriceKey(r.value.raw[i].key)
    ensures r.Some? ==> r.value.raw == ScrubPrices(it, c.str)
  {
    var sku := SkuOf(c.normStr(Get(it, "codigo_produto")));
    if sku == "" then None
    else
      assert '.' !in sku;
      Some(Row(
        sku,
        c.normStr(Get(it, "descricao")),
        c.normStr(Get(it, "descricao_tecnica")),
        c.normStr(Get(it, "codigo_barras")),
        c.normStr(Get(it, "tipo")),
        c.normStr(Get(it, "um")),
        c.normStr(Get(it, "qtde_cx")),
        c.parseDecimalBr(Get(it, "estoque")),
        ScrubPrices(it, c.str)))
  }

  /** A code made of dots only gives no SKU, so the item is dropped. */
  lemma DotsOnlyCodeRejected(s: string)
    requires forall i :: 0 <= i < |s| ==> s[i] == '.'
    ensures SkuOf(Some(s)) == ""
  {
    RemoveCharOfRepeats(s, '.');
  }

  /** Dots between dot-free groups disappear and the groups are joined. */
  lemma RemoveDotsBetween(a: string, b: string, c: string)
    requires '.' !in a && '.' !in b && '.' !in c
    ensures RemoveChar(a + "." + b + "." + c, '.') == a + b + c
  {
    assert RemoveChar(".", '.') == [] by {
      assert "."[1..] == [];
    }
    RemoveCharAbsent(a, '.');
    RemoveCharAppend(a, ".", '.');
    assert RemoveChar(a + ".", '.') == a;
    RemoveCharAbsent(b, '.');
    RemoveCharAppend(a + ".", b, '.');
    assert RemoveChar(a + "." + b, '.') == a + b;
    RemoveCharAppend(a + "." + b, ".", '.');
    assert RemoveChar(a + "." + b + ".", '.') == a + b;
    RemoveCharAbsent(c, '.');
    RemoveCharAppend(a + "." + b + ".", c, '.');
  }

  /** The dots of "12.345.6" removed. */
  lemma RemoveDotsExample()
    ensures RemoveChar("12.345.6", '.') == "123456"
  {
    RemoveDotsBetween("12", "345", "6");
    assert "12" + "." + "345" + "." + "6" == "12.345.6";
    assert "12" + "345" + "6" == "123456";
  }

  /** A dotted product code: "12.345.6" gives the SKU "123456". */
  lemma SkuExample()
    ensures SkuOf(Some("12.345.6")) == "123456"
  {
    RemoveDotsExample();
    var t := "123456";
    assert t[0] == '1' && t[|t| - 1] == '6';
    StripUnpadded(t);
  }

  // ------------------------------------------------------------------
  // ingest_from_api
  // ------------------------------------------------------------------

  /** The fields `build_product_text` is given. */
  datatype ProductText = ProductText(
    descricao: Option<string>,
    tipo: Option<string>,
    descricaoTecnica: Option<string>,
    codigoProduto: string,
    codigoBarras: Option<string>)

  function TextOf(row: Row): ProductText
  {
    ProductText(row.name, row.tipo, row.description, row.sku, row.codigoBarras)
  }

  function ChunksOf(row: Row, c: Collaborators): seq<string>
  {
    c.chunkByTokens(c.buildProductText(TextOf(row)))
  }

  /** One `insert_chunks` call: the product it belongs to and its chunks. */
  datatype ChunkBatch = ChunkBatch(productId: string, chunks: seq<string>)

  /** The state of a connection: the products table, the chunk batches
      inserted, the number of upserts issued, the value of that number at
      each commit, and the tables analysed. */
  datatype Db = Db(products: map<string, Row>, chunkLog: seq<ChunkBatch>, writes: nat,
                   commits: seq<nat>, analyzed: seq<string>)

  /** The database connection and the calls the orchestrator makes on it.
      `upsert_product` inserts or replaces the row keyed by its SKU and
      returns the product's identifier, modelled by that SKU. */
  class Connection {
    var products: map<string, Row>
    var chunkLog: seq<ChunkBatch>
    var writes: nat          // upserts issued on this connection so far
    var commits: seq<nat>    // `writes` at each commit
    var analyzed: seq<string>

    function Snapshot(): Db
      reads this
    {
      Db(products, chunkLog, writes, commits, analyzed)
    }

    constructor ()
      ensures products == map[] && chunkLog == [] && writes == 0 && commits == [] && analyzed == []
    {
      products, chunkLog, writes, commits, analyzed := map[], [], 0, [], [];
    }

    method UpsertProduct(row: Row) returns (id: string)
      modifies this
      ensures products == old(products)[row.sku := row] && writes == old(writes) + 1 && id == row.sku
      ensures chunkLog == old(chunkLog) && commits == old(commits) && analyzed == old(analyzed)
    {
      products := products[row.sku := row];
      writes := writes + 1;
      id := row.sku;
    }

    method InsertChunks(id: string, chunks: seq<string>)
      modifies this
      ensures chunkLog == old(chunkLog) + [ChunkBatch(id, chunks)]
      ensures products == old(products) && writes == old(writes) && commits == old(commits) && analyzed == old(analyzed)
    {
      chunkLog := chunkLog + [ChunkBatch(id, chunks)];
    }

    method Commit()
      modifies this
      ensures commits == old(commits) + [writes]
      ensures products == old(products) && chunkLog == old(chunkLog) && writes == old(writes) && analyzed == old(analyzed)
    {
      commits := commits + [writes];
    }

    method Analyze(table: string)
      modifies this
      ensures analyzed == old(analyzed) + [table]
      ensures products == old(products) && chunkLog == old(chunkLog) && writes == old(writes) && commits == old(commits)
    {
      analyzed := analyzed + [table];
    }
  }

  /** The rows the mapper admits, in item order, and the error raised by the
      first item that is not a dict. */
  datatype Admission = Admission(rows: seq<Row>, error: Option<IngestError>)

  /** What turns one item into a row, or rejects it. */
  type RowMapper = seq<Field> -> Option<Row>

  function Mapper(c: Collaborators): RowMapper
  {
    it => MapItemToRow(it, c)
  }

  function Admit(items: seq<Value>, m: RowMapper): Admission
  {
    if items == [] then Admission([], None)
    else AdmitStep(Admit(items[..|items| - 1], m), items[|items| - 1], m)
  }

  /** One more item through the mapper: skipped when it gives no row, an
      error when it is not a dict, and nothing at all after an error. */
  function AdmitStep(prev: Admission, x: Value, m: RowMapper): Admission
  {
    if prev.error.Some? then prev
    else if !x.Dict? then Admission(prev.rows, Some(NotADict))
    else match m(x.fields)
      case None => prev
      case Some(row) => Admission(prev.rows + [row], None)
  }

  /** A mapper whose rows all have a non-empty SKU free of dots admits only
      such rows, and no more rows than items were given. */
  lemma {:induction false} AdmitKeepsCleanSkus(items: seq<Value>, m: RowMapper)
    requires forall f :: m(f).Some? ==> m(f).value.sku != "" && '.' !in m(f).value.sku
    ensures var a := Admit(items, m);
            && |a.rows| <= |items|
            && forall j :: 0 <= j < |a.rows| ==> a.rows[j].sku != "" && '.' !in a.rows[j].sku
  {
    if items != [] {
      AdmitKeepsCleanSkus(items[..|items| - 1], m);
    }
  }

  /** Every admitted row has a non-empty SKU free of dots, and no more rows
      are admitted than items were given. */
  lemma AdmittedRowsWellFormed(items: seq<Value>, c: Collaborators)
    ensures var a := Admit(items, Mapper(c));
            && |a.rows| <= |items|
            && forall j :: 0 <= j < |a.rows| ==> a.rows[j].sku != "" && '.' !in a.rows[j].sku
  {
    var m := Mapper(c);
    forall f | m(f).Some?
      ensures m(f).value.sku != "" && '.' !in m(f).value.sku
    {
      assert m(f) == MapItemToRow(f, c);
    }
    AdmitKeepsCleanSkus(items, m);
  }

  lemma AdmitPrefixStep(items: seq<Value>, i: nat, m: RowMapper)
    requires i < |items|
    ensures Admit(items[..i + 1], m) == AdmitStep(Admit(items[..i], m), items[i], m)
  {
    TakeSnoc(items, i);
  }

  /** How many items the mapper accepts, counted from the front. */
  function AcceptedCount(items: seq<Value>, m: RowMapper): nat
  {
    if items == [] then 0
    else (if items[0].Dict? && m(items[0].fields).Some? then 1 else 0)
         + AcceptedCount(items[1..], m)
  }

  lemma {:induction false} AcceptedCountSnoc(items: seq<Value>, x: Value, m: RowMapper)
    ensures AcceptedCount(items + [x], m)
            == AcceptedCount(items, m) + (if x.Dict? && m(x.fields).Some? then 1 else 0)
  {
    if items != [] {
      assert (items + [x])[1..] == items[1..] + [x];
      AcceptedCountSnoc(items[1..], x, m);
    }
  }

  /** `upserted` counts exactly the items whose row is not None: rejected
      items are skipped uncounted. */
  lemma {:induction false} AdmittedCountsAccepted(items: seq<Value>, m: RowMapper)
    requires Admit(items, m).error.None?
    ensures |Admit(items, m).rows| == AcceptedCount(items, m)
  {
    if items != [] {
      var init, last := items[..|items| - 1], items[|items| - 1];
      assert items == init + [last];
      var prev := Admit(init, m);
      assert Admit(items, m) == AdmitStep(prev, last, m);
      assert prev.error.None?;
      AdmittedCountsAccepted(init, m);
      AcceptedCountSnoc(init, last, m);
    }
  }

  /** The rows that reach `upsert_product`: none in a dry run, only the first
      when `commit_every` is 0 (the modulus then raises), else all. */
  function Written(rows: seq<Row>, dryRun: bool, commitEvery: int): (w: seq<Row>)
    ensures dryRun ==> w == []
    ensures !dryRun && commitEvery != 0 ==> w == rows
    ensures !dryRun && commitEvery == 0 && rows != [] ==> w == rows[..1]
    ensures w <= rows
  {
    if dryRun then []
    else if commitEvery == 0 && rows != [] then rows[..1]
    else rows
  }

  /** The products table after upserting `rows` in order. */
  function ApplyUpserts(m: map<string, Row>, rows: seq<Row>): map<string, Row>
  {
    if rows == [] then m
    else ApplyUpserts(m, rows[..|rows| - 1])[rows[|rows| - 1].sku := rows[|rows| - 1]]
  }

  lemma {:induction false} ApplyUpsertsOverlay(m: map<string, Row>, rows: seq<Row>)
    ensures ApplyUpserts(m, rows) == m + ApplyUpserts(map[], rows)
  {
    if rows != [] {
      ApplyUpsertsOverlay(m, rows[..|rows| - 1]);
    }
  }

  /** Upsert by SKU is idempotent: ingesting the same catalog snapshot twice
      leaves the same products table as ingesting it once. */
  lemma UpsertsIdempotent(m: map<string, Row>, rows: seq<Row>)
    ensures ApplyUpserts(ApplyUpserts(m, rows), rows) == ApplyUpserts(m, rows)
  {
    var t := ApplyUpserts(map[], rows);
    ApplyUpsertsOverlay(m, rows);
    ApplyUpsertsOverlay(m + t, rows);
    assert (m + t) + t == m + t;
  }

  function ChunkBatches(rows: seq<Row>, c: Collaborators): seq<ChunkBatch>
  {
    if rows == [] then []
    else ChunkBatches(rows[..|rows| - 1], c) + [ChunkBatch(rows[|rows| - 1].sku, ChunksOf(rows[|rows| - 1], c))]
  }

  function ChunkTotal(rows: seq<Row>, c: Collaborators): nat
  {
    if rows == [] then 0
    else ChunkTotal(rows[..|rows| - 1], c) + |ChunksOf(rows[|rows| - 1], c)|
  }

  /** One `insert_chunks` call per written row, in row order, each with that
      row's SKU and chunks. */
  lemma {:induction false} ChunkTotalCountsBatches(rows: seq<Row>, c: Collaborators)
    ensures var b := ChunkBatches(rows, c);
            |b| == |rows| && (forall j :: 0 <= j < |b| ==> b[j] == ChunkBatch(rows[j].sku, ChunksOf(rows[j], c)))
  {
    if rows != [] {
      ChunkTotalCountsBatches(rows[..|rows| - 1], c);
    }
  }

  /** The number of chunks in a log of chunk batches. */
  function SumChunks(log: seq<ChunkBatch>): nat
  {
    if log == [] then 0 else SumChunks(log[..|log| - 1]) + |log[|log| - 1].chunks|
  }

  lemma {:induction false} SumChunksAppend(a: seq<ChunkBatch>, b: seq<ChunkBatch>)
    ensures SumChunks(a + b) == SumChunks(a) + SumChunks(b)
  {
    if b != [] {
      assert (a + b)[..|a + b| - 1] == a + b[..|b| - 1];
      SumChunksAppend(a, b[..|b| - 1]);
    } else {
      assert a + b == a;
    }
  }

  /** `chunks_ins` is the number of chunks in the `insert_chunks` calls. */
  lemma {:induction false} ChunkTotalIsLogged(rows: seq<Row>, c: Collaborators)
    ensures ChunkTotal(rows, c) == SumChunks(ChunkBatches(rows, c))
  {
    if rows != [] {
      var init, last := rows[..|rows| - 1], rows[|rows| - 1];
      ChunkTotalIsLogged(init, c);
      SumChunksAppend(ChunkBatches(init, c), [ChunkBatch(last.sku, ChunksOf(last, c))]);
      assert [ChunkBatch(last.sku, ChunksOf(last, c))][..0] == [];
    }
  }

  /** The value of `writes` at each in-loop commit: `base + k` for every
      k-th written row with `k % every == 0`. */
  function CommitPoints(base: nat, n: nat, every: int): seq<nat>
    requires every != 0
  {
    if n == 0 then []
    else CommitPoints(base, n - 1, every) + (if n % every == 0 then [base + n] else [])
  }

  /** A commit follows exactly the rows whose running count is a multiple of
      `commit_every`, in increasing order. */
  lemma {:induction false} CommitPointsSpec(base: nat, n: nat, every: int)
    requires every != 0
    ensures var cs := CommitPoints(base, n, every);
            && (forall i :: 0 <= i < |cs| ==> base < cs[i] <= base + n && (cs[i] - base) % every == 0)
            && (forall i, j :: 0 <= i < j < |cs| ==> cs[i] < cs[j])
            && (forall k :: 1 <= k <= n && k % every == 0 ==> base + k in cs)
  {
    if n > 0 {
      CommitPointsSpec(base, n - 1, every);
    }
  }

  /** What a run returns (`(upserted, chunks_ins)`) or raises. */
  datatype Counts = Counts(upserted: nat, chunksInserted: nat)

  /** The first admitted row is written before any later item is looked at,
      so with `commit_every == 0` its `ZeroDivisionError` wins over the
      admission's error, which in turn is raised before the pagination's. */
  function IngestOutcome(run: PageRun, adm: Admission, dryRun: bool, commitEvery: int, c: Collaborators): (r: Result<Counts, IngestError>)
    ensures r.Failure? <==> (!dryRun && commitEvery == 0 && adm.rows != []) || adm.error.Some? || run.error.Some?
    ensures !dryRun && commitEvery == 0 && adm.rows != [] ==> r == Failure(ZeroCommitInterval)
    ensures !(!dryRun && commitEvery == 0 && adm.rows != []) && adm.error.Some? ==> r == Failure(adm.error.value)
    ensures !(!dryRun && commitEvery == 0 && adm.rows != []) && adm.error.None? && run.error.Some? ==>
              r == Failure(run.error.value)
    ensures r.Success? ==> r.value.upserted == |adm.rows|
    ensures r.Success? && dryRun ==> r.value.chunksInserted == 0
    ensures r.Success? && !dryRun ==> r.value.chunksInserted == ChunkTotal(adm.rows, c)
  {
    if !dryRun && commitEvery == 0 && adm.rows != [] then Failure(ZeroCommitInterval)
    else if adm.error.Some? then Failure(adm.error.value)
    else if run.error.Some? then Failure(run.error.value)
    else Success(Counts(|adm.rows|, if dryRun then 0 else ChunkTotal(adm.rows, c)))
  }

  /** The commits `ingest_from_api`'s loop makes after `n` written rows,
      starting from `base` writes. */
  function LoopCommits(base: nat, n: nat, every: int): seq<nat>
  {
    if every == 0 then [] else CommitPoints(base, n, every)
  }

  /** The state after `upsert_product` and `insert_chunks` for one row. */
  function Upserted(db: Db, row: Row, c: Collaborators): Db
  {
    db.(products := db.products[row.sku := row],
        chunkLog := db.chunkLog + [ChunkBatch(row.sku, ChunksOf(row, c))],
        writes := db.writes + 1)
  }

  /** The state after `con.commit()`. */
  function Committed(db: Db): Db
  {
    db.(commits := db.commits + [db.writes])
  }

  /** The state after the loop wrote `rows`: each row upserted with its
      chunks, and a commit after every `every`-th of them. */
  function Synced(db: Db, rows: seq<Row>, every: int, c: Collaborators): Db
  {
    if rows == [] then db
    else
      var d := Upserted(Synced(db, rows[..|rows| - 1], every, c), rows[|rows| - 1], c);
      if every != 0 && |rows| % every == 0 then Committed(d) else d
  }

  lemma SyncedSnoc(db: Db, rows: seq<Row>, row: Row, every: int, c: Collaborators)
    ensures var d := Upserted(Synced(db, rows, every, c), row, c);
            Synced(db, rows + [row], every, c)
              == if every != 0 && (|rows| + 1) % every == 0 then Committed(d) else d
  {
    assert (rows + [row])[..|rows|] == rows;
  }

  /** Writing `rows` upserts them in order, logs one chunk batch per row,
      counts one write per row, commits after every `every`-th row and
      analyses nothing. */
  lemma {:induction false} SyncedMeaning(db: Db, rows: seq<Row>, every: int, c: Collaborators)
    ensures var s := Synced(db, rows, every, c);
            && s.products == ApplyUpserts(db.products, rows)
            && s.chunkLog == db.chunkLog + ChunkBatches(rows, c)
            && s.writes == db.writes + |rows|
            && s.commits == db.commits + LoopCommits(db.writes, |rows|, every)
            && s.analyzed == db.analyzed
  {
    if rows != [] {
      SyncedMeaning(db, rows[..|rows| - 1], every, c);
    }
  }

  /** The end of a successful non-dry run: two ANALYZE calls, then a commit. */
  function Finished(db: Db): Db
  {
    Committed(db.(analyzed := db.analyzed + ["rag.products", "rag.product_chunks"]))
  }

  /** The state `ingest_from_api` leaves after writing `w`; `finished` when
      it then analyses and commits. */
  function IngestState(db: Db, w: seq<Row>, every: int, finished: bool, c: Collaborators): Db
  {
    var s := Synced(db, w, every, c);
    if finished then Finished(s) else s
  }

  /** The products table, chunk log and commits reflect exactly the written
      rows: a commit follows every `every`-th written row, and a finished run
      adds two ANALYZE calls and one final commit. */
  lemma IngestStateMeaning(db: Db, w: seq<Row>, every: int, finished: bool, c: Collaborators)
    ensures var s := IngestState(db, w, every, finished, c);
            && s.products == ApplyUpserts(db.products, w)
            && s.chunkLog == db.chunkLog + ChunkBatches(w, c)
            && s.writes == db.writes + |w|
            && s.commits == db.commits + LoopCommits(db.writes, |w|, every)
                 + (if finished then [db.writes + |w|] else [])
            && s.analyzed == db.analyzed + (if finished then ["rag.products", "rag.product_chunks"] else [])
  {
    SyncedMeaning(db, w, every, c);
  }

  /** The `chunks_ins` a run returns is the number of chunks it added to the
      chunk log. */
  lemma ReportedChunksAreLogged(run: PageRun, adm: Admission, dryRun: bool, commitEvery: int, c: Collaborators, db: Db)
    requires IngestOutcome(run, adm, dryRun, commitEvery, c).Success?
    ensures var w := Written(adm.rows, dryRun, commitEvery);
            var s := IngestState(db, w, commitEvery, !dryRun, c);
            SumChunks(s.chunkLog) == SumChunks(db.chunkLog) + IngestOutcome(run, adm, dryRun, commitEvery, c).value.chunksInserted
  {
    var w := Written(adm.rows, dryRun, commitEvery);
    IngestStateMeaning(db, w, commitEvery, !dryRun, c);
    ChunkTotalIsLogged(w, c);
    SumChunksAppend(db.chunkLog, ChunkBatches(w, c));
  }

  /** What `ingest_from_api` returns or raises, and the state it leaves, when
      the pagination yields `run`: the rows admitted from the items are
      written (none in a dry run), and a successful non-dry run ends with two
      ANALYZE calls and one final commit. */
  method IngestFromApi(con: Connection, catalog: int -> (nat -> Response), startPage: int,
                       limitPages: Option<int>, dryRun: bool, commitEvery: int, c: Collaborators)
    returns (r: Result<Counts, IngestError>)
    modifies con
    ensures var run := IterSpec(catalog, startPage, limitPages);
            var adm := Admit(run.items, Mapper(c));
            var w := Written(adm.rows, dryRun, commitEvery);
            && r == IngestOutcome(run, adm, dryRun, commitEvery, c)
            && con.Snapshot() == IngestState(old(con.Snapshot()), w, commitEvery, !dryRun && r.Success?, c)
  {
    var run := IterAllItems(catalog, startPage, limitPages);
    r := IngestItems(con, run.items, dryRun, commitEvery, Mapper(c), c);
    if r.Failure? {
      return;
    }
    if run.error.Some? {
      return Failure(run.error.value);
    }
    if !dryRun {
      con.Analyze("rag.products");
      con.Analyze("rag.product_chunks");
      con.Commit();
    }
  }

  /** The loop of `ingest_from_api` over the yielded `items`, each mapped to
      a row by `m`: what it returns or raises when the pagination itself
      raises nothing, and the rows it writes. */
  method IngestItems(con: Connection, items: seq<Value>, dryRun: bool, commitEvery: int, m: RowMapper, c: Collaborators)
    returns (r: Result<Counts, IngestError>)
    modifies con
    ensures var adm := Admit(items, m);
            var w := Written(adm.rows, dryRun, commitEvery);
            && r == IngestOutcome(PageRun(items, [], None), adm, dryRun, commitEvery, c)
            && con.Snapshot() == Synced(old(con.Snapshot()), w, commitEvery, c)
  {
    ghost var db0 := con.Snapshot();
    var upserted: nat := 0;
    var chunksIns: nat := 0;
    var batchCount: nat := 0;
    ghost var rows: seq<Row> := [];
    for i := 0 to |items|
      invariant Admit(items[..i], m) == Admission(rows, None)
      invariant upserted == |rows|
      invariant !dryRun && commitEvery == 0 ==> rows == []
      invariant dryRun ==> chunksIns == 0 && con.Snapshot() == db0
      invariant !dryRun ==> && batchCount == |rows| && chunksIns == ChunkTotal(rows, c)
                            && con.Snapshot() == Synced(db0, rows, commitEvery, c)
    {
      var row := AdmitNext(items, i, m, rows);
      if row.Failure? {
        return Failure(NotADict);
      }
      if row.value.None? {
        continue;
      }
      var next := row.value.value;
      ChunkTotalSnoc(rows, next, c);
      if dryRun {
        upserted := upserted + 1;
        var text := c.buildProductText(TextOf(next));
        var _ := c.chunkByTokens(text);
      } else if commitEvery == 0 {
        // `batch_count % 0` raises ZeroDivisionError once the row is written
        var _ := WriteRow(con, next, c);
        ZeroIntervalEnds(items, i, m, next);
        return Failure(ZeroCommitInterval);
      } else {
        var n := StoreRow(con, db0, rows, next, batchCount + 1, commitEvery, c);
        upserted := upserted + 1;
        chunksIns := chunksIns + n;
        batchCount := batchCount + 1;
      }
      rows := rows + [next];
    }
    assert items[..|items|] == items;
    r := Success(Counts(upserted, chunksIns));
  }

  /** Writing one more row with a commit interval: the row is upserted with
      its chunks, and the connection commits when `batchCount` reaches a
      multiple of `commitEvery`. */
  method StoreRow(con: Connection, ghost db0: Db, ghost rows: seq<Row>, row: Row, batchCount: nat, commitEvery: int,
                  c: Collaborators)
    returns (n: nat)
    requires commitEvery != 0 && batchCount == |rows| + 1
    requires con.Snapshot() == Synced(db0, rows, commitEvery, c)
    modifies con
    ensures con.Snapshot() == Synced(db0, rows + [row], commitEvery, c)
    ensures n == |ChunksOf(row, c)|
  {
    SyncedSnoc(db0, rows, row, commitEvery, c);
    n := WriteRow(con, row, c);
    if batchCount % commitEvery == 0 {
      con.Commit();
    }
  }

  /** With `commit_every == 0` the first written row raises; the admission
      of all the items still begins with that row. */
  lemma ZeroIntervalEnds(items: seq<Value>, i: nat, m: RowMapper, row: Row)
    requires i < |items|
    requires Admit(items[..i + 1], m) == Admission([row], None)
    ensures Admit(items, m).rows != [] && Admit(items, m).rows[..1] == [row]
  {
    AdmitKeepsPrefix(items[..i + 1], items[i + 1..], m);
    SplitAt(items, i + 1);
  }

  /** `map_item_to_row` on the next item, told against the admission of the
      items so far: a non-dict item raises, which ends the admission. */
  method AdmitNext(items: seq<Value>, i: nat, m: RowMapper, ghost rows: seq<Row>)
    returns (step: Result<Option<Row>, IngestError>)
    requires i < |items|
    requires Admit(items[..i], m) == Admission(rows, None)
    ensures step.Failure? ==> step.error == NotADict && Admit(items, m) == Admission(rows, Some(NotADict))
    ensures step == Success(None) ==> Admit(items[..i + 1], m) == Admission(rows, None)
    ensures step.Success? && step.value.Some? ==> Admit(items[..i + 1], m) == Admission(rows + [step.value.value], None)
  {
    AdmitPrefixStep(items, i, m);
    if !items[i].Dict? {
      AdmitNonDictEnds(items, i, m, rows);
      step := Failure(NotADict);
    } else {
      step := Success(m(items[i].fields));
    }
  }

  lemma AdmitNonDictEnds(items: seq<Value>, i: nat, m: RowMapper, rows: seq<Row>)
    requires i < |items|
    requires Admit(items[..i], m) == Admission(rows, None)
    requires !items[i].Dict?
    ensures Admit(items, m) == Admission(rows, Some(NotADict))
  {
    SplitAt(items, i + 1);
    AdmitPrefixStep(items, i, m);
    AdmitStopsAtError(items[..i + 1], items[i + 1..], m);
  }

  /** Upserting one row and inserting its chunks; returns how many chunks
      were inserted. */
  method WriteRow(con: Connection, row: Row, c: Collaborators) returns (n: nat)
    modifies con
    ensures con.Snapshot() == Upserted(old(con.Snapshot()), row, c)
    ensures n == |ChunksOf(row, c)|
  {
    var productId := con.UpsertProduct(row);
    var text := c.buildProductText(TextOf(row));
    var chunks := c.chunkByTokens(text);
    con.InsertChunks(productId, chunks);
    n := |chunks|;
  }

  lemma ChunkTotalSnoc(rows: seq<Row>, row: Row, c: Collaborators)
    ensures ChunkTotal(rows + [row], c) == ChunkTotal(rows, c) + |ChunksOf(row, c)|
  {
    assert (rows + [row])[..|rows|] == rows;
  }

  lemma {:induction false} AdmitStopsAtError(items: seq<Value>, more: seq<Value>, m: RowMapper)
    requires Admit(items, m).error.Some?
    ensures Admit(items + more, m) == Admit(items, m)
  {
    if more != [] {
      var init := items + more[..|more| - 1];
      assert (items + more)[..|items + more| - 1] == init;
      AdmitStopsAtError(items, more[..|more| - 1], m);
    } else {
      assert items + more == items;
    }
  }

  /** Admitting more items only extends the admitted rows. */
  lemma {:induction false} AdmitKeepsPrefix(items: seq<Value>, more: seq<Value>, m: RowMapper)
    ensures Admit(items, m).rows <= Admit(items + more, m).rows
  {
    if more != [] {
      var init := items + more[..|more| - 1];
      assert (items + more)[..|items + more| - 1] == init;
      AdmitKeepsPrefix(items, more[..|more| - 1], m);
    } else {
      assert items + more == items;
    }
  }
}
