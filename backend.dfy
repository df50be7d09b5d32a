/**
 * The search endpoint as the paginating cursors see it. One cursor always
 * sends the same query text, filter and field list, so the endpoint is a
 * function of the requested window alone: the offset of the first document
 * and the number of rows.
 */
module SolrBackend {
  import opened Docs

  /**
   * An answer: a page with the response header's status and query time, the
   * total number of matches and the documents of the window; or a failed
   * HTTP request.
   */
  datatype Response =
    | Page(status: int, qtime: int, numFound: int, docs: seq<Doc>)
    | Failed(code: int)

  type Backend = (int, int) -> Response

  /** The documents of the result list `results` from offset `s`, at most `rows` of them. */
  function Window(results: seq<Doc>, s: int, rows: int): (w: seq<Doc>)
    requires 0 <= s && 0 <= rows
    ensures s <= |results| ==> |w| == if s + rows <= |results| then rows else |results| - s
    ensures s > |results| ==> w == []
    ensures forall i :: s <= i < s + |w| ==> w[i - s] == results[i]
  {
    if s >= |results| then []
    else results[s..if s + rows <= |results| then s + rows else |results|]
  }

  /**
   * An endpoint that answers every window of the result list `results`
   * honestly: it reports `|results|` matches and returns that window.
   */
  ghost predicate Honest(be: Backend, results: seq<Doc>) {
    forall s, rows :: 0 <= s && 0 <= rows ==>
      be(s, rows).Page? && be(s, rows).numFound == |results| && be(s, rows).docs == Window(results, s, rows)
  }
}
