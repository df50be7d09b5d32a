/**
 * The pure side of the search client: the fixed journal tables, the query
 * strings sent to the search endpoint, the request parameter map, and the
 * article links derived from a DOI.
 */
module SolrQuery {
  import opened Wrappers
  import opened Strings

  /** A journal: its display name, already in double quotes, and its site. */
  datatype Journal = Journal(name: string, url: string)

  /** The four-letter journal ids and their journals. */
  const Id2Journal: map<string, Journal> := map[
    "pbio" := Journal("\"PLoS Biology\"", "http://www.plosbiology.org"),
    "pgen" := Journal("\"PLoS Genetics\"", "http://www.plosgenetics.org"),
    "pcbi" := Journal("\"PLoS Computational Biology\"", "http://www.ploscompbiol.org"),
    "pmed" := Journal("\"PLoS Medicine\"", "http://www.plosmedicine.org"),
    "pone" := Journal("\"PLoS ONE\"", "http://www.plosone.org"),
    "pntd" := Journal("\"PLoS Neglected Tropical Diseases\"", "http://www.plosntds.org"),
    "pctr" := Journal("\"PLoS Clinical Trials\"", "http://clinicaltrials.ploshubs.org"),
    "ppat" := Journal("\"PLoS Pathogens\"", "http://www.plospathogens.org")
  ]

  /** The filter every request carries: full documents, no issue images. */
  const FixedFilter: string := "doc_type:full AND !article_type_facet:\"Issue Image\""

  predicate AllKnown(ids: seq<string>) {
    forall i :: 0 <= i < |ids| ==> ids[i] in Id2Journal
  }

  /** The quoted names of the journals, in the order of the ids; `None` on an unknown id. */
  function JournalNames(ids: seq<string>): (r: Option<seq<string>>)
    ensures r.Some? <==> AllKnown(ids)
    ensures r.Some? ==> |r.value| == |ids|
    ensures r.Some? ==> forall i :: 0 <= i < |ids| ==> r.value[i] == Id2Journal[ids[i]].name
  {
    if AllKnown(ids) then Some(seq(|ids|, i requires 0 <= i < |ids| && AllKnown(ids) => Id2Journal[ids[i]].name))
    else None
  }

  /** The text between the parentheses of a journal clause: the names joined by ` OR `. */
  function Disjunction(ids: seq<string>): Option<string> {
    match JournalNames(ids)
    case None => None
    case Some(names) => Some(Join(" OR ", names))
  }

  /** `_jrnl_query_params_str(ids)`: `journal:( ` + names OR-joined + ` )`. */
  function JournalClause(ids: seq<string>): (r: Option<string>)
    ensures r.Some? <==> AllKnown(ids)
    ensures r.Some? ==> r.value == "journal:( " + Disjunction(ids).value + " )"
  {
    match Disjunction(ids)
    case None => None
    case Some(names) => Some("journal:( " + names + " )")
  }

  /**
   * `_build_conjunctive_query_str(queries, journal_ids)`. An empty journal
   * list fails (the source indexes its first element); a first id `*` means
   * every journal and the remaining ids are not looked at; otherwise the
   * journal clause is the last of the ` AND `-joined parts.
   */
  function ConjunctiveQuery(queries: seq<string>, journalIds: seq<string>): (r: Option<string>)
    ensures |journalIds| == 0 ==> r.None?
    ensures |journalIds| > 0 && journalIds[0] == "*" ==> r == Some(Join(" AND ", queries))
    ensures |journalIds| > 0 && journalIds[0] != "*" ==>
      (r.Some? <==> AllKnown(journalIds)) &&
      (r.Some? && |queries| == 0 ==> r.value == JournalClause(journalIds).value) &&
      (r.Some? && |queries| > 0 ==>
         r.value == Join(" AND ", queries) + " AND " + JournalClause(journalIds).value)
  {
    if |journalIds| == 0 then None
    else if journalIds[0] == "*" then Some(Join(" AND ", queries))
    else
      match JournalClause(journalIds)
      case None => None
      case Some(clause) =>
        if |queries| > 0 then JoinSnoc(" AND ", queries, clause); Some(Join(" AND ", queries + [clause]))
        else assert queries + [clause] == [clause]; Some(Join(" AND ", queries + [clause]))
  }

  /** The request parameters; `start` and `rows` are kept as the numbers whose decimal text is sent. */
  datatype QueryMap = QueryMap(start: int, rows: int, fq: string, wt: string, apiKey: string, q: string, fl: string)

  /** `_build_query_map`: the fixed filter, JSON output, and the fields comma-joined (see `SetQueryMapOfBuilt`). */
  function BuildQueryMap(apiKey: string, start: int, rows: int, query: string, fields: seq<string>): (r: QueryMap)
    ensures r.start == start && r.rows == rows
    ensures r.fq == FixedFilter && r.wt == "json"
    ensures r.apiKey == apiKey && r.q == query && r.fl == Join(",", fields)
  {
    QueryMap(start, rows, FixedFilter, "json", apiKey, query, Join(",", fields))
  }

  /** `_set_query_map`: a new page window, everything else as it was; `SetQueryMapOfBuilt` relates it to `BuildQueryMap`. */
  function SetQueryMap(qm: QueryMap, start: int, rows: int): (r: QueryMap)
    ensures r.start == start && r.rows == rows
    ensures r.fq == qm.fq && r.wt == qm.wt && r.apiKey == qm.apiKey && r.q == qm.q && r.fl == qm.fl
  {
    qm.(start := start, rows := rows)
  }

  /** Re-windowing a built map is the map built with the new window. */
  lemma SetQueryMapOfBuilt(apiKey: string, start: int, rows: int, query: string, fields: seq<string>, start': int, rows': int)
    ensures SetQueryMap(BuildQueryMap(apiKey, start, rows, query, fields), start', rows')
         == BuildQueryMap(apiKey, start', rows', query, fields)
  {
  }

  /** `_journal_id(doi)`: the third of exactly four `.`-separated parts. */
  function JournalId(doi: string): (r: Option<string>)
    ensures r.Some? <==> |Split(doi, '.')| == 4
    ensures r.Some? ==> r.value == Split(doi, '.')[2] && '.' !in r.value
  {
    SplitShape(doi, '.');
    var parts := Split(doi, '.');
    if |parts| == 4 then Some(parts[2]) else None
  }

  /** A DOI with a journal id is its four parts put back together around that id. */
  lemma JournalIdRebuilds(doi: string)
    requires JournalId(doi).Some?
    ensures var p := Split(doi, '.');
      doi == p[0] + "." + p[1] + "." + JournalId(doi).value + "." + p[3]
  {
    SplitShape(doi, '.');
    SplitJoin(doi, '.');
    var p := Split(doi, '.');
    assert p[1..][1..] == p[2..] && p[2..][1..] == p[3..];
    assert Join(".", p[3..]) == p[3];
    assert Join(".", p[2..]) == p[2] + "." + p[3];
    assert Join(".", p[1..]) == p[1] + "." + (p[2] + "." + p[3]);
  }

  /** Four dot-free parts joined by dots give back the third as the journal id. */
  lemma JournalIdOfParts(a: string, b: string, j: string, c: string)
    requires '.' !in a && '.' !in b && '.' !in j && '.' !in c
    ensures JournalId(a + "." + b + "." + j + "." + c) == Some(j)
  {
    var s2 := j + "." + c;
    var s1 := b + "." + s2;
    assert a + "." + b + "." + j + "." + c == a + "." + s1;
    SplitNoSeparator(c, '.');
    SplitAtFirst(j, c, '.');
    SplitAtFirst(b, s2, '.');
    SplitAtFirst(a, s1, '.');
  }

  /**
   * `_journal_url(doi)`: the site of the DOI's journal; `None` on a malformed
   * DOI or unknown id. `JournalIdOfParts` gives the id of a DOI built from parts.
   */
  function JournalUrl(doi: string): (r: Option<string>)
    ensures r.Some? <==> JournalId(doi).Some? && JournalId(doi).value in Id2Journal
    ensures r.Some? ==> r.value == Id2Journal[JournalId(doi).value].url
  {
    match JournalId(doi)
    case None => None
    case Some(jid) => if jid in Id2Journal then Some(Id2Journal[jid].url) else None
  }

  /** The DOI as it appears in a link: `info:doi/` + DOI, URL-quoted unless `pretty`. */
  function LinkDoi(doi: string, pretty: bool, quote: string -> string): string {
    if pretty then "info:doi/" + doi else quote("info:doi/" + doi)
  }

  /** `article_page_url(doi, pretty)`; `PageUrlOfParts` spells out the link of a well-formed DOI. */
  function ArticlePageUrl(doi: string, pretty: bool, quote: string -> string): (r: Option<string>)
    ensures r.Some? <==> JournalUrl(doi).Some?
    ensures r.Some? ==> r.value == JournalUrl(doi).value + "/article/" + LinkDoi(doi, pretty, quote)
  {
    match JournalUrl(doi)
    case None => None
    case Some(url) => Some(url + "/article/" + LinkDoi(doi, pretty, quote))
  }

  const XmlAction: string := "/article/fetchObjectAttachment.action?representation=XML&uri="

  /** `article_xml_url(doi, pretty)`: the journal site, the attachment action and the DOI, failing where `JournalUrl` does. */
  function ArticleXmlUrl(doi: string, pretty: bool, quote: string -> string): (r: Option<string>)
    ensures r.Some? <==> JournalUrl(doi).Some?
    ensures r.Some? ==> r.value == JournalUrl(doi).value + XmlAction + LinkDoi(doi, pretty, quote)
  {
    match JournalUrl(doi)
    case None => None
    case Some(url) => Some(url + XmlAction + LinkDoi(doi, pretty, quote))
  }

  /**
   * The page link of a well-formed DOI of a known journal: that journal's site,
   * `/article/`, and the (quoted unless pretty) `info:doi/` form of the DOI.
   */
  lemma PageUrlOfParts(a: string, b: string, j: string, c: string, pretty: bool, quote: string -> string)
    requires '.' !in a && '.' !in b && '.' !in j && '.' !in c
    requires j in Id2Journal
    ensures var doi := a + "." + b + "." + j + "." + c;
      ArticlePageUrl(doi, pretty, quote) == Some(Id2Journal[j].url + "/article/" + LinkDoi(doi, pretty, quote))
  {
    JournalIdOfParts(a, b, j, c);
  }
}
