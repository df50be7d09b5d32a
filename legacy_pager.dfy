/**
 * The two older search cursors, `Query` of `src/gitPLOS/search/solr.py`
 * (variant `Search`) and `Query` of `openAccess/gitPLoS/search/query.py`
 * (variant `OpenAccess`), with their journal clause and the article links
 * of the first.
 *
 * Unlike the newer cursor these page by advancing `start`: `cursor` is the
 * index, in the current page `docs`, of the document handed out last, and a
 * page is replaced when the cursor runs off its end. Nothing is fetched on
 * construction; `query()` fetches the first page. The two variants differ in
 * three places: only `OpenAccess` puts the fixed filter `fq` in the request
 * and records the response header's `status` and `QTime`, and only `Search`
 * resets the cursor in `__iter__`.
 */
module LegacyPager {
  import opened Wrappers
  import opened Strings
  import opened Docs
  import opened SolrQuery
  import opened SolrBackend
  import SolrPager

  datatype Variant = Search | OpenAccess

  /**
   * The request parameters. `fq` is absent in the `Search` variant, `q` until
   * `query()` is given arguments, and `fl` until `query()` first runs.
   */
  datatype LegacyMap = LegacyMap(start: int, rows: int, fq: Option<string>, wt: string,
                                 apiKey: string, q: Option<string>, fl: Option<string>)

  /** The endpoint answers the whole request, query text included. */
  type LegacyBackend = LegacyMap -> Response

  datatype LegacyState = LegacyState(
    variant: Variant,
    start: int,
    limit: int,
    maxRows: int,
    cursor: int,
    qmap: LegacyMap,
    docs: seq<Doc>,
    numFound: int,
    status: int,
    qtime: int)

  /**
   * `Query.__init__`: the page size is the smaller of `limit` and `maxRows`,
   * the cursor sits before the first document of an empty page, and no
   * match has been counted.
   */
  function LegacyInit(variant: Variant, apiKey: string, start: int, limit: int, maxRows: int): (r: LegacyState)
    ensures r.variant == variant && r.start == start && r.limit == limit
    ensures r.maxRows <= limit && r.maxRows <= maxRows && (r.maxRows == limit || r.maxRows == maxRows)
    ensures r.cursor == -1 && r.docs == [] && r.numFound == 0 && r.status == -1 && r.qtime == -1
    ensures r.qmap.start == start && r.qmap.rows == r.maxRows && r.qmap.wt == "json" && r.qmap.apiKey == apiKey
    ensures r.qmap.fq == (if variant == OpenAccess then Some(FixedFilter) else None)
    ensures r.qmap.q.None? && r.qmap.fl.None?
  {
    var rows := if limit < maxRows then limit else maxRows;
    LegacyState(variant, start, limit, rows, -1,
                LegacyMap(start, rows, if variant == OpenAccess then Some(FixedFilter) else None,
                          "json", apiKey, None, None),
                [], 0, -1, -1)
  }

  /** The state after `query()`, and whether the request succeeded. */
  datatype Queried = Queried(st: LegacyState, ok: bool)

  /** The query text `query(args, ...)` leaves in the map: the args `AND`-joined, when there are any. */
  function QueryText(old_q: Option<string>, args: seq<string>): Option<string> {
    if |args| > 0 then Some(Join(" AND ", args)) else old_q
  }

  /**
   * `query(args, fields, iterate)`: unless iterating, set `q` (only for a
   * non-empty `args`) and `fl`; then send the map. A page replaces `docs`
   * and `numFound`, and in the `OpenAccess` variant `status` and `QTime`.
   * A failed request leaves the updated map behind.
   */
  function QueryStep(st: LegacyState, be: LegacyBackend, args: seq<string>, fields: string, iterate: bool): (r: Queried)
    ensures r.st.qmap.q == (if iterate then st.qmap.q else QueryText(st.qmap.q, args))
    ensures r.st.qmap.fl == (if iterate then st.qmap.fl else Some(fields))
    ensures r.st.qmap == st.qmap.(q := r.st.qmap.q, fl := r.st.qmap.fl)
    ensures r.ok <==> be(r.st.qmap).Page?
    ensures !r.ok ==> r.st == st.(qmap := r.st.qmap)
    ensures r.ok ==> r.st.docs == be(r.st.qmap).docs && r.st.numFound == be(r.st.qmap).numFound
    ensures r.ok && st.variant == OpenAccess ==>
      r.st.status == be(r.st.qmap).status && r.st.qtime == be(r.st.qmap).qtime
    ensures st.variant == Search ==> r.st.status == st.status && r.st.qtime == st.qtime
    ensures r.st.variant == st.variant && r.st.start == st.start && r.st.limit == st.limit
    ensures r.st.maxRows == st.maxRows && r.st.cursor == st.cursor
  {
    var qm := if iterate then st.qmap else st.qmap.(q := QueryText(st.qmap.q, args), fl := Some(fields));
    match be(qm)
    case Failed(_) => Queried(st.(qmap := qm), false)
    case Page(status, qtime, numFound, docs) =>
      if st.variant == OpenAccess then
        Queried(st.(qmap := qm, status := status, qtime := qtime, numFound := numFound, docs := docs), true)
      else
        Queried(st.(qmap := qm, numFound := numFound, docs := docs), true)
  }

  /** `__iter__`: the `Search` variant moves the cursor back before the current page; `OpenAccess` does nothing. */
  function LegacyIter(st: LegacyState): (r: LegacyState)
    ensures st.variant == Search ==> r == st.(cursor := -1)
    ensures st.variant == OpenAccess ==> r == st
  {
    if st.variant == Search then st.(cursor := -1) else st
  }

  /** Python's `xs[i]`: negative indexes count from the end; `None` is an `IndexError`. */
  function PyIndex<T>(xs: seq<T>, i: int): (r: Option<T>)
    ensures r.Some? <==> -|xs| <= i < |xs|
    ensures 0 <= i < |xs| ==> r == Some(xs[i])
    ensures -|xs| <= i < 0 ==> r == Some(xs[|xs| + i])
  {
    if 0 <= i < |xs| then Some(xs[i])
    else if -|xs| <= i < 0 then Some(xs[|xs| + i])
    else None
  }

  /** The rows asked for on a refill at offset `s`: a full page, or what is left below `limit`. */
  function RefillRows(s: int, limit: int, maxRows: int): (rows: int)
    ensures rows <= maxRows && s + rows <= limit
    ensures rows == maxRows || rows == limit - s
  {
    if s + maxRows > limit then limit - s else maxRows
  }

  datatype LStep = LStep(st: LegacyState, out: SolrPager.Outcome, fetched: bool)

  function TakeAt(st: LegacyState, fetched: bool): LStep {
    match PyIndex(st.docs, st.cursor)
    case None => LStep(st, SolrPager.Raised(SolrPager.IndexOutOfRange), fetched)
    case Some(d) => LStep(st, SolrPager.Yielded(d), fetched)
  }

  /**
   * `next()`: advance the cursor; when it runs off the page, move `start`
   * past the page and stop if that reaches `limit` or the match count, else
   * ask for the page there (at most `limit - start` rows) and restart the
   * cursor on it. Then hand out the document under the cursor.
   */
  function LegacyNext(st: LegacyState, be: LegacyBackend): (r: LStep)
    ensures r.fetched <==>
      st.cursor + 1 == |st.docs| && st.start + |st.docs| < st.limit && st.start + |st.docs| < st.numFound
    ensures r.out.Stopped? <==>
      st.cursor + 1 == |st.docs| && (st.start + |st.docs| >= st.limit || st.start + |st.docs| >= st.numFound)
    ensures st.cursor + 1 == |st.docs| ==> r.st.start == st.start + |st.docs|
    ensures st.cursor + 1 != |st.docs| ==> r.st == st.(cursor := st.cursor + 1) && !r.fetched
    ensures r.out.Stopped? ==> r.st == st.(start := st.start + |st.docs|, cursor := |st.docs|)
    ensures r.fetched ==>
      r.st.cursor == 0 && r.st.qmap.start == r.st.start &&
      r.st.qmap.rows == RefillRows(r.st.start, st.limit, st.maxRows) && r.st.qmap.start + r.st.qmap.rows <= st.limit
    ensures r.fetched ==> r.st.qmap == st.qmap.(start := r.st.start, rows := r.st.qmap.rows)
    ensures r.out.Yielded? ==> -|r.st.docs| <= r.st.cursor < |r.st.docs| && r.out.doc == PyIndex(r.st.docs, r.st.cursor).value
    ensures r.out == SolrPager.Raised(SolrPager.BackendFailed) <==> r.fetched && be(r.st.qmap).Failed?
    ensures r.st.limit == st.limit && r.st.maxRows == st.maxRows && r.st.variant == st.variant
  {
    var c := st.cursor + 1;
    if c == |st.docs| then
      var s := st.start + c;
      if s >= st.limit || s >= st.numFound then LStep(st.(cursor := c, start := s), SolrPager.Stopped, false)
      else
        var rows := RefillRows(s, st.limit, st.maxRows);
        var f := QueryStep(st.(start := s, cursor := 0, qmap := st.qmap.(start := s, rows := rows)), be, [], "", true);
        if !f.ok then LStep(f.st, SolrPager.Raised(SolrPager.BackendFailed), true)
        else TakeAt(f.st, true)
    else TakeAt(st.(cursor := c), false)
  }

  /** `next()` until a step stops or raises, at most `fuel` times, as with the newer cursor. */
  function LegacyRunWith(next: LegacyState -> LStep, st: LegacyState, fuel: nat): SolrPager.RunResult
    decreases fuel
  {
    if fuel == 0 then SolrPager.RunResult([], SolrPager.OutOfFuel, 0)
    else
      var s := next(st);
      var f := if s.fetched then 1 else 0;
      match s.out
      case Stopped => SolrPager.RunResult([], SolrPager.Exhausted, f)
      case Raised(e) => SolrPager.RunResult([], SolrPager.Crashed(e), f)
      case Yielded(d) =>
        var rest := LegacyRunWith(next, s.st, fuel - 1);
        SolrPager.RunResult([d] + rest.docs, rest.end, rest.fetches + f)
  }

  function LegacyNextOf(be: LegacyBackend): LegacyState -> LStep {
    x => LegacyNext(x, be)
  }

  /** `for doc in query`: `__iter__`, then `next()` until the loop ends. */
  function LegacyLoop(st: LegacyState, be: LegacyBackend, fuel: nat): SolrPager.RunResult {
    LegacyRunWith(LegacyNextOf(be), LegacyIter(st), fuel)
  }

  /**
   * A loop over a query on which `query()` was never called receives
   * nothing and fetches nothing: `numFound` is still 0, so the first
   * `next()` stops, provided `start` is not negative or has reached `limit`.
   */
  lemma NothingBeforeQuery(variant: Variant, apiKey: string, start: int, limit: int, maxRows: int,
                           be: LegacyBackend, fuel: nat)
    requires 0 <= start || limit <= start
    requires fuel >= 1
    ensures LegacyLoop(LegacyInit(variant, apiKey, start, limit, maxRows), be, fuel)
         == SolrPager.RunResult([], SolrPager.Exhausted, 0)
  {
  }

  /**
   * The case the previous lemma leaves out: with a negative `start` below
   * `limit`, the stop test passes even though `numFound` is 0, and the first
   * `next()` of a loop over a query never sent fetches a page.
   */
  lemma NegativeStartFetches(variant: Variant, apiKey: string, start: int, limit: int, maxRows: int,
                             be: LegacyBackend)
    requires start < 0 && start < limit
    ensures LegacyNext(LegacyIter(LegacyInit(variant, apiKey, start, limit, maxRows)), be).fetched
  {
  }

  /**
   * The `OpenAccess` cursor is single-pass: once a loop has stopped, a new
   * loop over the same object raises `IndexError` on its first `next()`.
   */
  lemma OpenAccessSinglePass(st: LegacyState, be: LegacyBackend)
    requires st.variant == OpenAccess
    requires LegacyNext(st, be).out.Stopped?
    ensures LegacyNext(LegacyIter(LegacyNext(st, be).st), be).out == SolrPager.Raised(SolrPager.IndexOutOfRange)
  {
  }

  /**
   * The `Search` cursor can be looped over again, but a second loop starts
   * on the last page fetched: it hands out that page's first document again
   * (and stops at once when that page was empty).
   */
  lemma SearchReplaysLastPage(st: LegacyState, be: LegacyBackend)
    requires st.variant == Search
    requires LegacyNext(st, be).out.Stopped?
    ensures var again := LegacyNext(LegacyIter(LegacyNext(st, be).st), be);
      if |st.docs| > 0 then again.out == SolrPager.Yielded(st.docs[0]) else again.out.Stopped?
  {
  }

  /**
   * An endpoint answering every request for query text `q` from the result
   * list `results`: it counts them all and returns the requested window.
   */
  ghost predicate AnswersFor(be: LegacyBackend, q: Option<string>, results: seq<Doc>) {
    forall qm: LegacyMap :: qm.q == q && 0 <= qm.start && 0 <= qm.rows ==>
      be(qm).Page? && be(qm).numFound == |results| && be(qm).docs == Window(results, qm.start, qm.rows)
  }

  /** The index of the next document a `next()` call hands out, counted over the whole result list. */
  function Pos(st: LegacyState): int {
    st.start + st.cursor + 1
  }

  /**
   * What holds between `next()` calls of a loop over an endpoint answering
   * for the map's query text: the page is the slice of the results that
   * begins at `start` and ends at or before `n = min(limit, |results|)`, and
   * an empty page only occurs at or past `n`.
   */
  ghost predicate LegacyBetween(st: LegacyState, q: Option<string>, results: seq<Doc>, n: int, m: int) {
    && 1 <= m <= st.limit
    && n == SolrPager.Min(st.limit, |results|)
    && st.maxRows == m
    && st.numFound == |results|
    && st.qmap.q == q
    && 0 <= st.start
    && -1 <= st.cursor < |st.docs|
    && (|st.docs| > 0 ==> st.start + |st.docs| <= n && st.docs == results[st.start..st.start + |st.docs|])
    && (|st.docs| == 0 ==> st.start >= n && st.cursor == -1)
  }

  /** One `next()` hands out the result at `Pos` below `n`, and stops at `n`. */
  lemma LegacyNextHonest(st: LegacyState, be: LegacyBackend, q: Option<string>, results: seq<Doc>, n: int, m: int)
    requires AnswersFor(be, q, results)
    requires LegacyBetween(st, q, results, n, m)
    ensures Pos(st) >= n ==> LegacyNext(st, be).out == SolrPager.Stopped
    ensures Pos(st) < n ==>
      && LegacyNext(st, be).out == SolrPager.Yielded(results[Pos(st)])
      && Pos(LegacyNext(st, be).st) == Pos(st) + 1
      && LegacyBetween(LegacyNext(st, be).st, q, results, n, m)
  {
    if st.cursor + 1 == |st.docs| && Pos(st) < n {
      LegacyRefillHonest(st, be, q, results, n, m);
    }
  }

  lemma LegacyRefillHonest(st: LegacyState, be: LegacyBackend, q: Option<string>, results: seq<Doc>, n: int, m: int)
    requires AnswersFor(be, q, results)
    requires LegacyBetween(st, q, results, n, m)
    requires st.cursor + 1 == |st.docs| && Pos(st) < n
    ensures var s := Pos(st);
      LegacyNext(st, be).st.docs == results[s..s + SolrPager.Min(RefillRows(s, st.limit, m), |results| - s)]
    ensures LegacyNext(st, be).st.start == Pos(st) && LegacyNext(st, be).st.cursor == 0
    ensures LegacyNext(st, be).st.numFound == |results| && LegacyNext(st, be).st.qmap.q == q
  {
    var s := Pos(st);
    var rows := RefillRows(s, st.limit, m);
    assert be(st.qmap.(start := s, rows := rows)).Page?;
  }

  /**
   * One step `r` from `x`: at or past `n` it stops; below `n` it hands out
   * the result at `Pos`, moves `Pos` on by one and lands in `inv` again.
   */
  ghost predicate LegacyStepsHonestly(r: LStep, x: LegacyState, inv: LegacyState -> bool, results: seq<Doc>, n: int)
    requires 0 <= n <= |results|
  {
    if Pos(x) >= n then r.out == SolrPager.Stopped
    else 0 <= Pos(x) && r.out == SolrPager.Yielded(results[Pos(x)]) && Pos(r.st) == Pos(x) + 1 && inv(r.st)
  }

  ghost predicate LegacyAlwaysHonest(next: LegacyState -> LStep, inv: LegacyState -> bool, results: seq<Doc>, n: int) {
    && 0 <= n <= |results|
    && forall x {:trigger next(x)} :: inv(x) ==> LegacyStepsHonestly(next(x), x, inv, results, n)
  }

  ghost function LegacyBetweenOf(q: Option<string>, results: seq<Doc>, n: int, m: int): LegacyState -> bool {
    x => LegacyBetween(x, q, results, n, m)
  }

  lemma LegacyNextIsHonest(be: LegacyBackend, q: Option<string>, results: seq<Doc>, n: int, m: int)
    requires AnswersFor(be, q, results)
    requires 0 <= n <= |results|
    ensures LegacyAlwaysHonest(LegacyNextOf(be), LegacyBetweenOf(q, results, n, m), results, n)
  {
    var inv := LegacyBetweenOf(q, results, n, m);
    forall x | inv(x)
      ensures LegacyStepsHonestly(LegacyNext(x, be), x, inv, results, n)
    {
      LegacyNextHonest(x, be, q, results, n, m);
    }
  }

  /**
   * Steps that keep to `LegacyStepsHonestly` hand out the results from `Pos`
   * up to `n` (`LegacyRunHonestDocs`), then stop (`LegacyRunHonestEnds`).
   */
  lemma {:induction false} LegacyRunHonestDocs(next: LegacyState -> LStep, inv: LegacyState -> bool, st: LegacyState,
                                               results: seq<Doc>, n: int, fuel: nat)
    requires LegacyAlwaysHonest(next, inv, results, n)
    requires inv(st)
    requires fuel > n - Pos(st)
    ensures LegacyRunWith(next, st, fuel).docs == if Pos(st) < n then results[Pos(st)..n] else []
    decreases n - Pos(st)
  {
    var r := next(st);
    assert LegacyStepsHonestly(r, st, inv, results, n);
    if Pos(st) < n {
      LegacyRunYields(next, st, fuel, results[Pos(st)]);
      LegacyRunHonestDocs(next, inv, r.st, results, n, fuel - 1);
      SolrPager.SliceCons(results, Pos(st), n);
    } else if fuel >= 1 {
      LegacyRunStops(next, st, fuel);
    }
  }

  /** A step that yields `d` puts it in front of what the rest of the loop receives. */
  lemma LegacyRunYields(next: LegacyState -> LStep, st: LegacyState, fuel: nat, d: Doc)
    requires fuel >= 1 && next(st).out == SolrPager.Yielded(d)
    ensures LegacyRunWith(next, st, fuel).docs == [d] + LegacyRunWith(next, next(st).st, fuel - 1).docs
    ensures LegacyRunWith(next, st, fuel).end == LegacyRunWith(next, next(st).st, fuel - 1).end
  {
  }

  /** A step that stops ends the loop normally with nothing more. */
  lemma LegacyRunStops(next: LegacyState -> LStep, st: LegacyState, fuel: nat)
    requires fuel >= 1 && next(st).out == SolrPager.Stopped
    ensures LegacyRunWith(next, st, fuel).docs == [] && LegacyRunWith(next, st, fuel).end == SolrPager.Exhausted
  {
  }

  lemma {:induction false} LegacyRunHonestEnds(next: LegacyState -> LStep, inv: LegacyState -> bool, st: LegacyState,
                                               results: seq<Doc>, n: int, fuel: nat)
    requires LegacyAlwaysHonest(next, inv, results, n)
    requires inv(st)
    requires fuel >= 1 && fuel > n - Pos(st)
    ensures LegacyRunWith(next, st, fuel).end == SolrPager.Exhausted
    decreases n - Pos(st)
  {
    var r := next(st);
    assert LegacyStepsHonestly(r, st, inv, results, n);
    if Pos(st) < n {
      LegacyRunHonestEnds(next, inv, r.st, results, n, fuel - 1);
    }
  }

  /**
   * `query(args, fields)` and a loop over the object, against an endpoint
   * that answers the query text from `results`: when the first page cannot
   * pass `limit` (`start + min(limit, maxRows) <= limit`, which holds for
   * `start = 0`), the loop receives exactly the results from `start` up to
   * `min(limit, |results|)`, in order, and ends normally.
   */
  lemma LegacyHonestIteration(variant: Variant, apiKey: string, start: int, limit: int, maxRows: int,
                              args: seq<string>, fields: string,
                              be: LegacyBackend, results: seq<Doc>, fuel: nat)
    requires 1 <= maxRows && 1 <= limit && 0 <= start
    requires start + SolrPager.Min(limit, maxRows) <= limit
    requires AnswersFor(be, QueryText(None, args), results)
    requires fuel >= 1 && fuel > SolrPager.Min(limit, |results|) - start
    ensures QueryStep(LegacyInit(variant, apiKey, start, limit, maxRows), be, args, fields, false).ok
    ensures var n := SolrPager.Min(limit, |results|);
      LegacyLoop(QueryStep(LegacyInit(variant, apiKey, start, limit, maxRows), be, args, fields, false).st, be, fuel).docs
        == if start < n then results[start..n] else []
    ensures LegacyLoop(QueryStep(LegacyInit(variant, apiKey, start, limit, maxRows), be, args, fields, false).st, be, fuel).end
        == SolrPager.Exhausted
  {
    var n := SolrPager.Min(limit, |results|);
    var m := SolrPager.Min(limit, maxRows);
    var q := QueryText(None, args);
    var st := QueryStep(LegacyInit(variant, apiKey, start, limit, maxRows), be, args, fields, false).st;
    FirstQueryHonest(variant, apiKey, start, limit, maxRows, args, fields, be, results);
    LegacyNextIsHonest(be, q, results, n, m);
    LegacyRunHonestDocs(LegacyNextOf(be), LegacyBetweenOf(q, results, n, m), LegacyIter(st), results, n, fuel);
    LegacyRunHonestEnds(LegacyNextOf(be), LegacyBetweenOf(q, results, n, m), LegacyIter(st), results, n, fuel);
  }

  /** The first `query()` against an answering endpoint succeeds and leaves a `LegacyBetween` state at `start`. */
  lemma FirstQueryHonest(variant: Variant, apiKey: string, start: int, limit: int, maxRows: int,
                         args: seq<string>, fields: string, be: LegacyBackend, results: seq<Doc>)
    requires 1 <= maxRows && 1 <= limit && 0 <= start
    requires start + SolrPager.Min(limit, maxRows) <= limit
    requires AnswersFor(be, QueryText(None, args), results)
    ensures var f := QueryStep(LegacyInit(variant, apiKey, start, limit, maxRows), be, args, fields, false);
      && f.ok
      && Pos(LegacyIter(f.st)) == start
      && LegacyBetween(LegacyIter(f.st), QueryText(None, args), results,
                       SolrPager.Min(limit, |results|), SolrPager.Min(limit, maxRows))
  {
    var st0 := LegacyInit(variant, apiKey, start, limit, maxRows);
    assert be(st0.qmap.(q := QueryText(None, args), fl := Some(fields))).Page?;
  }

  /**
   * Without that condition the first page can pass `limit`: it is asked for
   * with `maxRows` rows whatever `start` is, and every document on it is
   * handed out.
   */
  lemma FirstPagePassesLimit(variant: Variant, apiKey: string, start: int, limit: int, maxRows: int,
                             args: seq<string>, fields: string, be: LegacyBackend, results: seq<Doc>)
    requires 0 <= start && 0 <= maxRows <= limit
    requires start + maxRows <= |results|
    requires AnswersFor(be, QueryText(None, args), results)
    ensures var f := QueryStep(LegacyInit(variant, apiKey, start, limit, maxRows), be, args, fields, false);
      f.ok && f.st.docs == results[start..start + maxRows]
  {
    var st0 := LegacyInit(variant, apiKey, start, limit, maxRows);
    assert be(st0.qmap.(q := QueryText(None, args), fl := Some(fields))).Page?;
  }

  /** `mkJrnlQuery(jrnls)`: `journal:(` + the quoted names `OR`-joined + `)`; `None` on an unknown id. */
  function LegacyJournalClause(ids: seq<string>): (r: Option<string>)
    ensures r.Some? <==> AllKnown(ids)
    ensures r.Some? ==> r.value == "journal:(" + Disjunction(ids).value + ")"
  {
    match Disjunction(ids)
    case None => None
    case Some(names) => Some("journal:(" + names + ")")
  }

  /** The older clause is the newer one without the blanks inside the parentheses. */
  lemma JournalClausesAgree(ids: seq<string>)
    requires AllKnown(ids)
    ensures JournalClause(ids).value == "journal:( " + Disjunction(ids).value + " )"
    ensures LegacyJournalClause(ids).value == "journal:(" + Disjunction(ids).value + ")"
  {
  }

  /** A one-journal clause names just that journal. */
  lemma LegacyJournalClauseOne(j: string)
    requires j in Id2Journal
    ensures LegacyJournalClause([j]) == Some("journal:(" + Id2Journal[j].name + ")")
  {
    assert AllKnown([j]);
  }

  /**
   * The journal sites of `src/gitPLOS/search/solr.py`, keyed by the
   * journal's name without quotes.
   */
  const JMap: map<string, string> := map[
    "PLoS Biology" := "http://www.plosbiology.org",
    "PLoS Genetics" := "http://www.plosgenetics.org",
    "PLoS Computational Biology" := "http://www.ploscompbiol.org",
    "PLoS Medicine" := "http://www.plosmedicine.org",
    "PLoS ONE" := "http://www.plosone.org",
    "PLoS Neglected Tropical Diseases" := "http://www.plosntds.org",
    "PLoS Clinical Trials" := "http://clinicaltrials.ploshubs.org",
    "PLoS Pathogens" := "http://www.plospathogens.org"
  ]

  /**
   * The site of a DOI's journal, the older way: split into exactly four
   * parts, look the third up among the ids, strip the quotes from the
   * journal's name and look that up among the sites.
   */
  function LegacySite(doi: string): (r: Option<string>)
    ensures r.Some? <==>
      JournalId(doi).Some? && JournalId(doi).value in Id2Journal && RemoveChar(Id2Journal[JournalId(doi).value].name, '"') in JMap
    ensures r.Some? ==> r.value == JMap[RemoveChar(Id2Journal[JournalId(doi).value].name, '"')]
  {
    match JournalId(doi)
    case None => None
    case Some(jid) =>
      if jid !in Id2Journal then None
      else
        var name := RemoveChar(Id2Journal[jid].name, '"');
        if name in JMap then Some(JMap[name]) else None
  }

  /** `articleUrl(doi)`: the site, `/article/`, and `info:doi/` + DOI URL-quoted. */
  function LegacyArticleUrl(doi: string, quote: string -> string): (r: Option<string>)
    ensures r.Some? <==> LegacySite(doi).Some?
    ensures r.Some? ==> r.value == LegacySite(doi).value + "/article/" + quote("info:doi/" + doi)
  {
    match LegacySite(doi)
    case None => None
    case Some(url) => Some(url + "/article/" + quote("info:doi/" + doi))
  }

  /** `articleXML(doi)`: the site, the attachment action with the quoted DOI as `uri`, then `&representation=XML`. */
  function LegacyArticleXml(doi: string, quote: string -> string): (r: Option<string>)
    ensures r.Some? <==> LegacySite(doi).Some?
    ensures r.Some? ==> r.value == LegacySite(doi).value + "/article/fetchObjectAttachment.action?uri="
                                   + quote("info:doi/" + doi) + "&representation=XML"
  {
    match LegacySite(doi)
    case None => None
    case Some(url) => Some(url + "/article/fetchObjectAttachment.action?uri=" + quote("info:doi/" + doi)
                           + "&representation=XML")
  }

  /** Like the newer page link, both older links fail on a DOI that is not four `.`-separated parts. */
  lemma LegacyLinksNeedFourParts(doi: string, quote: string -> string)
    requires |Split(doi, '.')| != 4
    ensures LegacyArticleUrl(doi, quote).None? && LegacyArticleXml(doi, quote).None?
    ensures ArticlePageUrl(doi, false, quote).None?
  {
  }

  /**
   * The Python object. The endpoint it talks to is fixed when it is built;
   * `docs`, `numFound` and the header fields are what the last request
   * returned.
   */
  class Query {
    const variant: Variant
    var start: int
    var limit: int
    var maxRows: int
    var cursor: int
    var qmap: LegacyMap
    var docs: seq<Doc>
    var numFound: int
    var status: int
    var qtime: int
    const backend: LegacyBackend

    function State(): LegacyState
      reads this
    {
      LegacyState(variant, start, limit, maxRows, cursor, qmap, docs, numFound, status, qtime)
    }

    constructor (variant: Variant, apiKey: string, start: int, limit: int, maxRows: int, backend: LegacyBackend)
      ensures State() == LegacyInit(variant, apiKey, start, limit, maxRows)
      ensures this.backend == backend
    {
      this.variant := variant;
      this.start := start;
      this.limit := limit;
      this.cursor := -1;
      this.maxRows := if limit < maxRows then limit else maxRows;
      this.qmap := LegacyMap(start, if limit < maxRows then limit else maxRows,
                             if variant == OpenAccess then Some(FixedFilter) else None, "json", apiKey, None, None);
      this.docs := [];
      this.status := -1;
      this.qtime := -1;
      this.numFound := 0;
      this.backend := backend;
    }

    /** `query(args, fields, iterate)`; `ok` is false where the Python method raises. */
    method Query(args: seq<string>, fields: string, iterate: bool) returns (ok: bool, result: seq<Doc>)
      modifies this
      ensures Queried(State(), ok) == QueryStep(old(State()), backend, args, fields, iterate)
      ensures ok ==> result == docs
    {
      if !iterate {
        if |args| > 0 {
          qmap := qmap.(q := Some(Join(" AND ", args)));
        }
        qmap := qmap.(fl := Some(fields));
      }
      var resp := backend(qmap);
      if resp.Failed? {
        return false, [];
      }
      if variant == OpenAccess {
        status := resp.status;
        qtime := resp.qtime;
      }
      numFound := resp.numFound;
      docs := resp.docs;
      return true, docs;
    }

    /** `__iter__`. */
    method Iter()
      modifies this
      ensures State() == LegacyIter(old(State()))
    {
      if variant == Search {
        cursor := -1;
      }
    }

    /** `next`. */
    method Next() returns (out: SolrPager.Outcome, fetched: bool)
      modifies this
      ensures LStep(State(), out, fetched) == LegacyNext(old(State()), backend)
    {
      fetched := false;
      cursor := cursor + 1;
      if cursor == |docs| {
        start := start + cursor;
        var rows := maxRows;
        if start >= limit || start >= numFound {
          return SolrPager.Stopped, false;
        }
        if start + maxRows > limit {
          rows := limit - start;
        }
        cursor := 0;
        qmap := qmap.(start := start, rows := rows);
        var ok, _ := Query([], "", true);
        fetched := true;
        if !ok {
          return SolrPager.Raised(SolrPager.BackendFailed), true;
        }
      }
      var d := PyIndex(docs, cursor);
      if d.None? {
        return SolrPager.Raised(SolrPager.IndexOutOfRange), fetched;
      }
      out := SolrPager.Yielded(d.value);
    }
  }
}
