/**
 * The iterable search query of `src/oa_nlp/plos_api/solr.py`: a cursor over
 * the matches of one query, fetched from the endpoint a page of
 * `chunk_size` documents at a time and cut off at `limit`.
 *
 * `PagerState` holds the fields of the Python object and `Fetch`,
 * `IterStep` and `NextStep` are its three operations as functions of the
 * old state; the class `Query` performs them in place and is proved to
 * agree with them. `Run` and `Iterate` follow a Python `for` loop over the
 * object, and the lemmas at the end say what such a loop yields.
 */
module SolrPager {
  import opened Wrappers
  import opened Docs
  import opened SolrQuery
  import opened SolrBackend

  datatype PagerState = PagerState(
    start: int,
    limit: int,
    chunkSize: int,
    cursor: int,
    bufferCursor: nat,
    qmap: QueryMap,
    buffer: seq<Doc>,
    numFound: int,
    numReturned: int)

  function Min(a: int, b: int): int { if a < b then a else b }

  /**
   * `Query.__init__`: the page size is the smaller of `limit` and
   * `chunk_size`, the request map asks for the first page, and nothing has
   * been fetched. `None` when the query string cannot be built.
   */
  function Init(apiKey: string, queries: seq<string>, fields: seq<string>, journals: seq<string>,
                start: int, limit: int, chunkSize: int): (r: Option<PagerState>)
    ensures r.Some? <==> ConjunctiveQuery(queries, journals).Some?
    ensures r.Some? ==> r.value.chunkSize <= limit && r.value.chunkSize <= chunkSize
    ensures r.Some? ==> r.value.chunkSize == limit || r.value.chunkSize == chunkSize
    ensures r.Some? ==> r.value.start == start && r.value.limit == limit
    ensures r.Some? ==> r.value.cursor == 0 && r.value.bufferCursor == 0 && r.value.buffer == []
    ensures r.Some? ==> r.value.numFound == 0 && r.value.numReturned == 0
    ensures r.Some? ==> r.value.qmap == BuildQueryMap(apiKey, start, r.value.chunkSize,
                                                     ConjunctiveQuery(queries, journals).value, fields)
  {
    match ConjunctiveQuery(queries, journals)
    case None => None
    case Some(q) =>
      var chunk := if limit < chunkSize then limit else chunkSize;
      Some(PagerState(start, limit, chunk, 0, 0, BuildQueryMap(apiKey, start, chunk, q, fields), [], 0, 0))
  }

  /** The state after a fetch, and whether the request succeeded. */
  datatype Fetched = Fetched(st: PagerState, ok: bool)

  /**
   * `_fetch_docs(start, rows)`: re-window the request map and ask the
   * endpoint. A failed request leaves only the re-windowed map behind; a
   * page replaces the buffer, records the match count and lowers `limit` to
   * it when there are fewer matches than `limit`.
   */
  function Fetch(st: PagerState, be: Backend, start: int, rows: int): (r: Fetched)
    ensures r.st.qmap == SetQueryMap(st.qmap, start, rows)
    ensures r.ok <==> be(start, rows).Page?
    ensures r.st.start == st.start && r.st.chunkSize == st.chunkSize
    ensures r.st.cursor == st.cursor && r.st.bufferCursor == st.bufferCursor
    ensures r.st.limit <= st.limit
    ensures !r.ok ==> r.st == st.(qmap := r.st.qmap)
    ensures r.ok ==> r.st.numFound == be(start, rows).numFound && r.st.limit <= r.st.numFound
    ensures r.ok ==> (r.st.limit == st.limit || r.st.limit == r.st.numFound)
    ensures r.ok ==> r.st.buffer == be(start, rows).docs && r.st.numReturned == |r.st.buffer|
  {
    var qm := SetQueryMap(st.qmap, start, rows);
    match be(qm.start, qm.rows)
    case Failed(_) => Fetched(st.(qmap := qm), false)
    case Page(_, _, numFound, docs) =>
      Fetched(st.(qmap := qm, numFound := numFound,
                  limit := if numFound < st.limit then numFound else st.limit,
                  buffer := docs, numReturned := |docs|), true)
  }

  /** `__iter__`: rewind to `start` with an empty buffer and fetch the first page. */
  function IterStep(st: PagerState, be: Backend): (r: Fetched)
    ensures r.st.cursor == st.start && r.st.bufferCursor == 0
    ensures r.st.qmap.start == st.start && r.st.qmap.rows == st.chunkSize
    ensures r.ok <==> be(st.start, st.chunkSize).Page?
    ensures !r.ok ==> r.st.buffer == []
    ensures r.ok ==> r.st.buffer == be(st.start, st.chunkSize).docs
  {
    Fetch(st.(cursor := st.start, bufferCursor := 0, buffer := []), be, st.start, st.chunkSize)
  }

  datatype PagerError = BackendFailed | IndexOutOfRange

  /** What one `next()` call does: return a document, raise `StopIteration`, or raise an error. */
  datatype Outcome = Yielded(doc: Doc) | Stopped | Raised(error: PagerError)

  /** The state after `next()`, its outcome, and whether it fetched a page. */
  datatype Step = Step(st: PagerState, out: Outcome, fetched: bool)

  /** Hand out the document under the buffer cursor. */
  function Take(st: PagerState, fetched: bool): Step {
    if st.bufferCursor < |st.buffer| then
      Step(st.(bufferCursor := st.bufferCursor + 1, cursor := st.cursor + 1),
           Yielded(st.buffer[st.bufferCursor]), fetched)
    else Step(st, Raised(IndexOutOfRange), fetched)
  }

  /**
   * `next()`: stop at `limit`; when a whole page has been handed out, fetch
   * the next one at the cursor and stop if it is empty; then hand out the
   * buffered document and advance both cursors.
   */
  function NextStep(st: PagerState, be: Backend): (r: Step)
    ensures r.fetched <==> st.cursor != st.limit && st.bufferCursor == st.chunkSize
    ensures r.fetched ==> r.st.qmap.start == st.cursor && r.st.qmap.rows == st.chunkSize
    ensures r.out.Stopped? <==>
      st.cursor == st.limit ||
      (st.bufferCursor == st.chunkSize && be(st.cursor, st.chunkSize).Page? && |be(st.cursor, st.chunkSize).docs| == 0)
    ensures r.out.Yielded? ==>
      r.st.cursor == st.cursor + 1 &&
      r.st.bufferCursor == (if r.fetched then 1 else st.bufferCursor + 1) &&
      0 < r.st.bufferCursor <= |r.st.buffer| &&
      r.out.doc == r.st.buffer[r.st.bufferCursor - 1]
    ensures r.out.Raised? && r.out.error == BackendFailed <==> r.fetched && be(st.cursor, st.chunkSize).Failed?
    ensures r.st.limit <= st.limit && r.st.cursor >= st.cursor
    ensures r.st.start == st.start && r.st.chunkSize == st.chunkSize
    ensures !r.fetched ==> r.st.buffer == st.buffer && r.st.limit == st.limit
  {
    if st.cursor == st.limit then Step(st, Stopped, false)
    else if st.bufferCursor == st.chunkSize then
      var f := Fetch(st.(bufferCursor := 0), be, st.cursor, st.chunkSize);
      if !f.ok then Step(f.st, Raised(BackendFailed), true)
      else if f.st.numReturned == 0 then Step(f.st, Stopped, true)
      else Take(f.st, true)
    else Take(st, false)
  }

  /** How a `for` loop over the query ends. */
  datatype End = Exhausted | Crashed(error: PagerError) | OutOfFuel

  /** The documents a loop receives, how it ends, and how many pages it fetched. */
  datatype RunResult = RunResult(docs: seq<Doc>, end: End, fetches: nat)

  /** Taking steps of `next` until one stops or raises, at most `fuel` of them. */
  function RunWith(next: PagerState -> Step, st: PagerState, fuel: nat): (r: RunResult)
    decreases fuel
  {
    if fuel == 0 then RunResult([], OutOfFuel, 0)
    else
      var s := next(st);
      var f := if s.fetched then 1 else 0;
      match s.out
      case Stopped => RunResult([], Exhausted, f)
      case Raised(e) => RunResult([], Crashed(e), f)
      case Yielded(d) =>
        var rest := RunWith(next, s.st, fuel - 1);
        RunResult([d] + rest.docs, rest.end, rest.fetches + f)
  }

  /** `next()` as a step function over the endpoint `be`. */
  function NextOf(be: Backend): PagerState -> Step {
    x => NextStep(x, be)
  }

  /** Calling `next()` until it stops or raises, at most `fuel` times. */
  function Run(st: PagerState, be: Backend, fuel: nat): RunResult {
    RunWith(NextOf(be), st, fuel)
  }

  /** A step of `iter` and then steps of `next` until the loop ends. */
  function IterateWith(iter: PagerState -> Fetched, next: PagerState -> Step, st: PagerState, fuel: nat): RunResult {
    var i := iter(st);
    if !i.ok then RunResult([], Crashed(BackendFailed), 1)
    else
      var r := RunWith(next, i.st, fuel);
      r.(fetches := r.fetches + 1)
  }

  /** `__iter__` as a step function over the endpoint `be`. */
  function IterOf(be: Backend): PagerState -> Fetched {
    x => IterStep(x, be)
  }

  /** `for doc in query`: `__iter__`, then `next()` until the loop ends. */
  function Iterate(st: PagerState, be: Backend, fuel: nat): RunResult {
    IterateWith(IterOf(be), NextOf(be), st, fuel)
  }

  /**
   * The pages fetched by `next()` while `n` more documents are handed out,
   * starting with buffer cursor `b` on pages of `c` documents: one each
   * time the cursor reaches the end of a page.
   */
  function Refills(c: int, b: int, n: nat): nat
    decreases n
  {
    if n == 0 then 0
    else if b == c then 1 + Refills(c, 1, n - 1)
    else Refills(c, b + 1, n - 1)
  }

  lemma {:induction false} RefillsClosedForm(c: int, b: int, n: nat)
    requires 1 <= c && 0 <= b <= c
    ensures n <= c - b ==> Refills(c, b, n) == 0
    ensures n > c - b ==> (Refills(c, b, n) - 1) * c < n - (c - b) <= Refills(c, b, n) * c
    decreases n
  {
    if n > 0 {
      if b == c {
        RefillsClosedForm(c, 1, n - 1);
      } else {
        RefillsClosedForm(c, b + 1, n - 1);
      }
    }
  }

  /**
   * What holds between `next()` calls of a loop over an honest endpoint:
   * `limit` has been lowered to `n` (the smaller of the old limit and the
   * match count), and the buffer is the page that begins
   * `bufferCursor` documents before the cursor.
   */
  ghost predicate Between(st: PagerState, results: seq<Doc>, n: int, c: int) {
    && 1 <= c
    && st.limit == n && n <= |results|
    && st.chunkSize == c
    && st.cursor <= n
    && st.bufferCursor <= c
    && 0 <= st.cursor - st.bufferCursor
    && st.buffer == Window(results, st.cursor - st.bufferCursor, c)
    && st.numReturned == |st.buffer|
  }

  /** One `next()` below `n` hands out the result under the cursor and keeps `Between`. */
  lemma NextHonest(st: PagerState, be: Backend, results: seq<Doc>, n: int, c: int)
    requires Honest(be, results)
    requires Between(st, results, n, c)
    requires st.cursor < n
    ensures var s := NextStep(st, be);
      && s.out == Yielded(results[st.cursor])
      && (s.fetched <==> st.bufferCursor == c)
      && s.st.cursor == st.cursor + 1
      && s.st.bufferCursor == (if st.bufferCursor == c then 1 else st.bufferCursor + 1)
      && Between(s.st, results, n, c)
  {
    if st.bufferCursor == c {
      NextHonestRefill(st, be, results, n, c);
    } else {
      NextHonestBuffered(st, be, results, n, c);
    }
  }

  lemma NextHonestRefill(st: PagerState, be: Backend, results: seq<Doc>, n: int, c: int)
    requires Honest(be, results)
    requires Between(st, results, n, c)
    requires st.cursor < n && st.bufferCursor == c
    ensures var s := NextStep(st, be);
      && s.out == Yielded(results[st.cursor])
      && s.fetched
      && s.st.cursor == st.cursor + 1
      && s.st.bufferCursor == 1
      && Between(s.st, results, n, c)
  {
    var f := Fetch(st.(bufferCursor := 0), be, st.cursor, c);
    assert be(st.cursor, c).Page? && be(st.cursor, c).numFound == |results|;
    assert be(st.cursor, c).docs == Window(results, st.cursor, c);
    assert f.ok && f.st.buffer == Window(results, st.cursor, c) && f.st.limit == n;
    assert f.st.buffer[0] == results[st.cursor];
    assert NextStep(st, be) == Take(f.st, true);
  }

  lemma NextHonestBuffered(st: PagerState, be: Backend, results: seq<Doc>, n: int, c: int)
    requires Between(st, results, n, c)
    requires st.cursor < n && st.bufferCursor < c
    ensures var s := NextStep(st, be);
      && s.out == Yielded(results[st.cursor])
      && !s.fetched
      && s.st.cursor == st.cursor + 1
      && s.st.bufferCursor == st.bufferCursor + 1
      && Between(s.st, results, n, c)
  {
    var b := st.cursor - st.bufferCursor;
    assert st.bufferCursor < |st.buffer|;
    assert st.buffer[st.bufferCursor] == results[b + st.bufferCursor];
    assert NextStep(st, be) == Take(st, false);
  }

  /**
   * One step `s` from state `x`: at `n` it stops without fetching; below
   * `n` it hands out the result under the cursor, advances both cursors
   * (the buffer cursor restarting after a refill at `c`), and lands in a
   * state satisfying `inv` again.
   */
  ghost predicate StepsHonestly(s: Step, x: PagerState, inv: PagerState -> bool, results: seq<Doc>, n: int, c: int)
    requires 0 <= x.cursor <= n <= |results|
  {
    if x.cursor == n then s.out == Stopped && !s.fetched
    else
      && s.out == Yielded(results[x.cursor])
      && (s.fetched <==> x.bufferCursor == c)
      && s.st.cursor == x.cursor + 1
      && s.st.bufferCursor == (if x.bufferCursor == c then 1 else x.bufferCursor + 1)
      && inv(s.st)
  }

  /** `next` steps honestly from every state satisfying `inv`. */
  ghost predicate AlwaysHonest(next: PagerState -> Step, inv: PagerState -> bool, results: seq<Doc>, n: int, c: int) {
    && n <= |results|
    && forall x {:trigger next(x)} :: inv(x) ==>
         0 <= x.cursor <= n && StepsHonestly(next(x), x, inv, results, n, c)
  }

  ghost function BetweenOf(results: seq<Doc>, n: int, c: int): PagerState -> bool {
    x => Between(x, results, n, c)
  }

  /** `next()` against an honest endpoint steps honestly from every `Between` state. */
  lemma NextIsHonest(be: Backend, results: seq<Doc>, n: int, c: int)
    requires Honest(be, results)
    requires n <= |results|
    ensures AlwaysHonest(NextOf(be), BetweenOf(results, n, c), results, n, c)
  {
    var inv := BetweenOf(results, n, c);
    forall x | inv(x)
      ensures 0 <= x.cursor <= n && StepsHonestly(NextStep(x, be), x, inv, results, n, c)
    {
      if x.cursor < n {
        NextHonest(x, be, results, n, c);
      }
    }
  }

  /**
   * From a state satisfying `inv`, steps that keep to `StepsHonestly` hand
   * out the results from the cursor up to `n`, in order (`RunHonestDocs`),
   * then stop normally (`RunHonestEnds`), having fetched a page each time
   * the cursor reached the end of one (`RunHonestFetches`).
   */
  lemma {:induction false} RunHonestDocs(next: PagerState -> Step, inv: PagerState -> bool, st: PagerState,
                                   results: seq<Doc>, n: int, c: int, fuel: nat)
    requires AlwaysHonest(next, inv, results, n, c)
    requires inv(st)
    requires fuel > n - st.cursor
    ensures RunWith(next, st, fuel).docs == results[st.cursor..n]
    decreases n - st.cursor
  {
    var s := next(st);
    assert 0 <= st.cursor <= n && StepsHonestly(s, st, inv, results, n, c);
    if st.cursor < n {
      RunHonestDocs(next, inv, s.st, results, n, c, fuel - 1);
      SliceCons(results, st.cursor, n);
    }
  }

  lemma {:induction false} RunHonestEnds(next: PagerState -> Step, inv: PagerState -> bool, st: PagerState,
                                   results: seq<Doc>, n: int, c: int, fuel: nat)
    requires AlwaysHonest(next, inv, results, n, c)
    requires inv(st)
    requires fuel > n - st.cursor
    ensures RunWith(next, st, fuel).end == Exhausted
    decreases n - st.cursor
  {
    var s := next(st);
    assert 0 <= st.cursor <= n && StepsHonestly(s, st, inv, results, n, c);
    if st.cursor < n {
      RunHonestEnds(next, inv, s.st, results, n, c, fuel - 1);
    }
  }

  lemma {:induction false} RunHonestFetches(next: PagerState -> Step, inv: PagerState -> bool, st: PagerState,
                                   results: seq<Doc>, n: int, c: int, fuel: nat)
    requires AlwaysHonest(next, inv, results, n, c)
    requires inv(st)
    requires fuel > n - st.cursor
    ensures RunWith(next, st, fuel).fetches == Refills(c, st.bufferCursor, n - st.cursor)
    decreases n - st.cursor
  {
    var s := next(st);
    assert 0 <= st.cursor <= n && StepsHonestly(s, st, inv, results, n, c);
    if st.cursor < n {
      RunHonestFetches(next, inv, s.st, results, n, c, fuel - 1);
      assert Refills(c, st.bufferCursor, n - st.cursor)
          == (if s.fetched then 1 else 0) + Refills(c, s.st.bufferCursor, n - st.cursor - 1);
    }
  }

  lemma SliceCons<T>(s: seq<T>, i: int, n: int)
    requires 0 <= i < n <= |s|
    ensures s[i..n] == [s[i]] + s[i + 1..n]
  {
  }

  /**
   * A loop over a freshly built query, against an endpoint that answers
   * honestly from a result list, with `0 <= start <= min(limit, |results|)`
   * and a positive `chunk_size`: it receives exactly the results from
   * `start` up to `min(limit, |results|)`, in the endpoint's order, and ends
   * normally. It fetched one page in `__iter__` and one more each time a
   * full page was used up before the end: as many fetches as it takes pages
   * of `min(limit, chunk_size)` to hold the documents received (the least
   * `k` with `n - start <= k * c`), and a single fetch when there are none.
   */
  lemma HonestIteration(apiKey: string, queries: seq<string>, fields: seq<string>, journals: seq<string>,
                        start: int, limit: int, chunkSize: int, st: PagerState,
                        be: Backend, results: seq<Doc>, fuel: nat)
    requires Init(apiKey, queries, fields, journals, start, limit, chunkSize) == Some(st)
    requires 1 <= chunkSize
    requires 0 <= start <= Min(limit, |results|)
    requires fuel > Min(limit, |results|) - start
    requires Honest(be, results)
    ensures Iterate(st, be, fuel).docs == results[start..Min(limit, |results|)]
    ensures Iterate(st, be, fuel).end == Exhausted
    ensures Min(limit, |results|) == start ==> Iterate(st, be, fuel).fetches == 1
    ensures Min(limit, |results|) > start ==>
      PagesFor(Iterate(st, be, fuel).fetches, Min(limit, |results|) - start, Min(limit, chunkSize))
  {
    assert st.start == start && st.limit == limit && st.chunkSize == Min(limit, chunkSize);
    FreshIteration(st, be, results, fuel);
  }

  /** `k` pages of `c` documents are the fewest that hold `m` documents. */
  predicate PagesFor(k: int, m: int, c: int) {
    (k - 1) * c < m <= k * c
  }

  /** `HonestIteration` for any state with a window that fits the results. */
  lemma FreshIteration(st: PagerState, be: Backend, results: seq<Doc>, fuel: nat)
    requires Honest(be, results)
    requires (st.limit == 0 && st.chunkSize == 0) || 1 <= st.chunkSize <= st.limit
    requires 0 <= st.start <= Min(st.limit, |results|)
    requires fuel > Min(st.limit, |results|) - st.start
    ensures var n := Min(st.limit, |results|); var r := Iterate(st, be, fuel);
      && r.docs == results[st.start..n]
      && r.end == Exhausted
      && (n == st.start ==> r.fetches == 1)
      && (n > st.start ==> PagesFor(r.fetches, n - st.start, st.chunkSize))
  {
    if st.limit == 0 {
      ZeroLimitIteration(st, be, results, fuel);
    } else {
      var n := Min(st.limit, |results|);
      IterHonest(st, be, results);
      NextIsHonest(be, results, n, st.chunkSize);
      IterateHonest(IterOf(be), NextOf(be), BetweenOf(results, n, st.chunkSize), st, results, n, fuel);
    }
  }

  /** With `limit = 0` the loop fetches one empty page and stops. */
  lemma ZeroLimitIteration(st: PagerState, be: Backend, results: seq<Doc>, fuel: nat)
    requires Honest(be, results)
    requires st.limit == 0 && st.chunkSize == 0 && st.start == 0
    requires fuel > 0
    ensures Iterate(st, be, fuel) == RunResult([], Exhausted, 1)
  {
    var i := IterStep(st, be);
    assert be(0, 0).Page?;
    assert i.st.limit == 0 && i.st.cursor == 0;
    assert NextStep(i.st, be).out == Stopped;
  }

  /** `HonestIteration` for any first step into `inv` followed by honest steps. */
  lemma IterateHonest(iter: PagerState -> Fetched, next: PagerState -> Step, inv: PagerState -> bool,
                      st: PagerState, results: seq<Doc>, n: int, fuel: nat)
    requires iter(st).ok && iter(st).st.cursor == st.start && iter(st).st.bufferCursor == 0
    requires inv(iter(st).st)
    requires AlwaysHonest(next, inv, results, n, st.chunkSize)
    requires 1 <= st.chunkSize
    requires fuel > n - st.start
    ensures IterateWith(iter, next, st, fuel).docs == results[st.start..n]
    ensures IterateWith(iter, next, st, fuel).end == Exhausted
    ensures n == st.start ==> IterateWith(iter, next, st, fuel).fetches == 1
    ensures n > st.start ==> PagesFor(IterateWith(iter, next, st, fuel).fetches, n - st.start, st.chunkSize)
  {
    var i := iter(st).st;
    var s := next(i);
    assert inv(i);
    assert 0 <= i.cursor <= n;
    RunHonestDocs(next, inv, i, results, n, st.chunkSize, fuel);
    RunHonestEnds(next, inv, i, results, n, st.chunkSize, fuel);
    RunHonestFetches(next, inv, i, results, n, st.chunkSize, fuel);
    if n > st.start {
      PagesNeeded(st.chunkSize, n - st.start, IterateWith(iter, next, st, fuel).fetches);
    }
  }

  /** `__iter__` against an honest endpoint succeeds, lowers `limit` to the match count, and leaves a `Between` state. */
  lemma IterHonest(st: PagerState, be: Backend, results: seq<Doc>)
    requires Honest(be, results)
    requires 1 <= st.chunkSize <= st.limit
    requires 0 <= st.start <= Min(st.limit, |results|)
    ensures IterStep(st, be).ok
    ensures Between(IterStep(st, be).st, results, Min(st.limit, |results|), st.chunkSize)
  {
    assert be(st.start, st.chunkSize).Page?;
  }

  /** One page for `__iter__` plus the refills: the least `k` with `m <= k * c`. */
  lemma PagesNeeded(c: int, m: int, k: int)
    requires 1 <= c && 1 <= m
    requires k == Refills(c, 0, m) + 1
    ensures PagesFor(k, m, c)
  {
    RefillsClosedForm(c, 0, m);
    assert k * c == (k - 1) * c + c;
  }

  /**
   * Once the cursor is past `limit` (a query built with `start > limit`,
   * or an endpoint that reported fewer matches than `start`), `next()`
   * keeps it past: `limit` only goes down and the cursor only up, so the
   * stop at `cursor == limit` never fires again.
   */
  lemma PastLimitStaysPast(st: PagerState, be: Backend)
    requires st.cursor > st.limit
    ensures NextStep(st, be).st.cursor > NextStep(st, be).st.limit
    ensures NextStep(st, be).out.Stopped? ==> NextStep(st, be).fetched
  {
  }

  /**
   * A query whose `start` lies beyond the last match does not stop: the
   * first page is empty, `limit` drops to the number of matches, below the
   * cursor, and the first `next()` indexes the empty buffer.
   */
  lemma StartBeyondMatchesRaises(st: PagerState, be: Backend, results: seq<Doc>, fuel: nat)
    requires Honest(be, results)
    requires 1 <= st.chunkSize && st.start > |results|
    requires fuel >= 1
    ensures Iterate(st, be, fuel) == RunResult([], Crashed(IndexOutOfRange), 1)
  {
    assert be(st.start, st.chunkSize).Page?;
    var i := IterStep(st, be).st;
    assert i.cursor == st.start && i.limit <= |results| && i.buffer == [] && i.bufferCursor == 0;
    assert NextStep(i, be).out == Raised(IndexOutOfRange);
  }

  /**
   * The Python object. Its fields are those of `Query`; the endpoint it
   * talks to is fixed when it is built.
   */
  class Query {
    var start: int
    var limit: int
    var chunkSize: int
    var cursor: int
    var bufferCursor: nat
    var qmap: QueryMap
    var buffer: seq<Doc>
    var numFound: int
    var numReturned: int
    const backend: Backend

    function State(): PagerState
      reads this
    {
      PagerState(start, limit, chunkSize, cursor, bufferCursor, qmap, buffer, numFound, numReturned)
    }

    constructor (apiKey: string, queries: seq<string>, fields: seq<string>, journals: seq<string>,
                 start: int, limit: int, chunkSize: int, backend: Backend)
      requires ConjunctiveQuery(queries, journals).Some?
      ensures State() == Init(apiKey, queries, fields, journals, start, limit, chunkSize).value
      ensures this.backend == backend
    {
      this.start := start;
      this.limit := limit;
      this.chunkSize := if limit < chunkSize then limit else chunkSize;
      this.cursor := 0;
      this.bufferCursor := 0;
      this.qmap := BuildQueryMap(apiKey, start, if limit < chunkSize then limit else chunkSize,
                                 ConjunctiveQuery(queries, journals).value, fields);
      this.buffer := [];
      this.numFound := 0;
      this.numReturned := 0;
      this.backend := backend;
    }

    /** `_fetch_docs`; `ok` is false where the Python method raises. */
    method FetchDocs(start: int, rows: int) returns (ok: bool)
      modifies this
      ensures Fetched(State(), ok) == Fetch(old(State()), backend, start, rows)
    {
      qmap := SetQueryMap(qmap, start, rows);
      var resp := backend(qmap.start, qmap.rows);
      if resp.Failed? {
        return false;
      }
      numFound := resp.numFound;
      if numFound < limit {
        limit := numFound;
      }
      buffer := resp.docs;
      numReturned := |buffer|;
      ok := true;
    }

    /** `__iter__`; `ok` is false where the Python method raises. */
    method Iter() returns (ok: bool)
      modifies this
      ensures Fetched(State(), ok) == IterStep(old(State()), backend)
    {
      cursor := start;
      bufferCursor := 0;
      buffer := [];
      ok := FetchDocs(cursor, chunkSize);
    }

    /** `next`. */
    method Next() returns (out: Outcome, fetched: bool)
      modifies this
      ensures Step(State(), out, fetched) == NextStep(old(State()), backend)
    {
      fetched := false;
      if cursor == limit {
        return Stopped, false;
      }
      if bufferCursor == chunkSize {
        bufferCursor := 0;
        var ok := FetchDocs(cursor, chunkSize);
        fetched := true;
        if !ok {
          return Raised(BackendFailed), true;
        }
        if numReturned == 0 {
          return Stopped, true;
        }
      }
      if bufferCursor >= |buffer| {
        return Raised(IndexOutOfRange), fetched;
      }
      var doc := buffer[bufferCursor];
      bufferCursor := bufferCursor + 1;
      cursor := cursor + 1;
      out := Yielded(doc);
    }
  }
}
