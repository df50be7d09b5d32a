# OA_NLP in Dafny

A model of the core of OA_NLP, the openAccess toolkit for building NLTK text
corpora from the PLOS article search API, with proofs about that model.

The model covers five parts of the repository:

- **Search cursors.** The iterable Solr `Query` of `src/oa_nlp/plos_api/solr.py`
  pages through the matches of one query, `chunk_size` documents at a time,
  and cuts off at `limit`. Its pure side is in `solr_query.dfy`: the journal
  tables, the conjunctive query string, the request map and the article links.
  The cursor itself is in `pager.dfy`. The two older cursors, of
  `src/gitPLOS/search/solr.py` and `openAccess/gitPLoS/search/query.py`,
  page by moving `start` instead and are in `legacy_pager.dfy`.
- **Corpus builders.** `Corpus_info` and `Plos_builder` of
  `src/oa_nlp/nltk/plos_builder.py` keep a full, a partial and an optional
  training index; they are in `plos_builder.dfy`. The batch builder of
  `src/gitPLOS/nltk/builder.py` and the one-pass builder of
  `openAccess/gitPLoS/nltk/corpus/builder.py` are in `legacy_builder.dfy`.
- **Corpus readers.** `Plos_reader` (`src/oa_nlp/nltk/plos_reader.py`, and its
  identical copy `reader.py`) is in `plos_reader.dfy`. `PlosReader` of
  `openAccess/gitPLoS/nltk/corpus/reader.py` is in `legacy_reader.dfy`.
- **Helpers.** `doi2fn`, `listafy` and `field_list_to_dict`, in all their
  copies, are in `util.dfy`.
- **kNN classifier.** Both copies of `kNN` are in `knn.dfy`.

Objects whose methods update their fields are Dafny classes: the three cursors,
`Corpus_info`, `Plos_builder` and the two older builders. Each method is proved
to agree with a function from the old state to the new state (`NextStep`,
`Retain`, `AddStep`, `AddBatch`, and so on). Lemmas about those functions state
what the source promises:

- a `for` loop over the newer cursor (`SolrPager.Query`) receives exactly the
  matches from `start` to `min(limit, numFound)`, in order, with the fewest
  pages of `min(limit, chunkSize)` that hold them (one fetch when there are
  none); the two older cursors receive the same matches when their first
  page cannot pass `limit` (`LegacyPager.LegacyHonestIteration`), and
  otherwise that first page overshoots it (`LegacyPager.FirstPagePassesLimit`);
- the builders keep their indexes consistent: over documents with new,
  distinct DOIs the category maps stay inverse and every record names its
  DOI's own files, and the full index is the union of the partial and
  training ones;
- a reader opened on the files a builder writes answers with the builder's data;
- `calculate` returns every training category once, heaviest first, with the
  votes of its own neighbours among the `k` nearest.

Loops in the source (`retain_info`, `build`, the merge in `add`, the reader
accessors, the voting loop of `calculate`) are methods with loop invariants.

Python dicts whose key order shows in a result are modelled by `PyDict.Dict`,
a map together with an order of its keys. Only `doi_article_info` is an
`OrderedDict`, whose order is insertion order; for every other dict Python 2
leaves the order unspecified, and insertion order stands in for it. Failures that Python raises
(`KeyError`, `IndexError`, a failed HTTP request) are `None`, `Raised` or
`ok = false` results, never preconditions.

Inputs from outside are parameters:

- the search endpoint is a function from the requested window (or, for the
  older cursors, the whole request map) to a page or a failure;
- the files a reader opens are a map from path to the index record they hold;
- URL quoting is a function parameter;
- the creation time stamp is a parameter.

## Model

| member | source | states |
|---|---|---|
| SolrQuery.JournalNames | src/oa_nlp/plos_api/solr.py:130 | the quoted names of the given journal ids, in order; `None` exactly when an id is unknown (the `KeyError`) |
| SolrQuery.JournalClause | src/oa_nlp/plos_api/solr.py:125-131 | `journal:( ` + names joined by ` OR ` + ` )`, defined exactly when every id is known |
| SolrQuery.ConjunctiveQuery | src/oa_nlp/plos_api/solr.py:133-142 | an empty journal list fails, since the source indexes its first element; a first id `*` gives the queries ` AND `-joined; otherwise the journal clause is the last conjunct |
| SolrQuery.BuildQueryMap | src/oa_nlp/plos_api/solr.py:92-102 | the request map holds the window, the fixed filter, JSON output, the API key, the query and the comma-joined fields |
| SolrQuery.SetQueryMap | src/oa_nlp/plos_api/solr.py:104-107 | only `start` and `rows` change |
| SolrQuery.SetQueryMapOfBuilt | src/oa_nlp/plos_api/solr.py:92-107 | re-windowing a built map equals building it with the new window |
| SolrQuery.JournalId | src/oa_nlp/plos_api/solr.py:109-111 | defined exactly on DOIs of four `.`-separated parts; the id is the third part, free of dots |
| SolrQuery.JournalIdRebuilds | src/oa_nlp/plos_api/solr.py:109-111 | a DOI with a journal id is its four parts joined back around that id |
| SolrQuery.JournalIdOfParts | src/oa_nlp/plos_api/solr.py:109-111 | four dot-free parts joined by dots give back the third as the journal id (round trip) |
| SolrQuery.JournalUrl | src/oa_nlp/plos_api/solr.py:113-115 | the site of the DOI's journal, defined exactly when the DOI is well formed and its id is known |
| SolrQuery.ArticlePageUrl | src/oa_nlp/plos_api/solr.py:144-152 | site + `/article/` + `info:doi/`DOI (quoted unless pretty); fails exactly where the journal lookup fails |
| SolrQuery.ArticleXmlUrl | src/oa_nlp/plos_api/solr.py:154-163 | site + the attachment action with `representation=XML` and the DOI as `uri`; fails exactly where the journal lookup fails |
| SolrQuery.PageUrlOfParts | src/oa_nlp/plos_api/solr.py:144-152 | a well-formed DOI of a known journal links to that journal's own site |
| SolrPager.Init | src/oa_nlp/plos_api/solr.py:169-180 | the page size is `min(limit, chunk_size)`; the map asks for the first page; cursors at 0, empty buffer, no matches counted; `None` where the query string cannot be built |
| SolrPager.Fetch | src/oa_nlp/plos_api/solr.py:182-190 | re-windows the map; on a page, replaces the buffer, records `numFound`, and lowers `limit` to it when it is smaller; on a failed request only the map changes |
| SolrPager.IterStep | src/oa_nlp/plos_api/solr.py:193-198 | rewinds the cursor to `start`, empties the buffer and fetches the first page of `chunk_size` at `start` |
| SolrPager.NextStep | src/oa_nlp/plos_api/solr.py:201-216 | stops at `cursor == limit`, or when a refill at a full page returns nothing; refills exactly when the page is used up; otherwise yields the buffered document and advances both cursors; `limit` never rises |
| SolrPager.RefillsClosedForm | src/oa_nlp/plos_api/solr.py:205-207 | the number of refills while `n` documents are handed out is the least that covers them in pages of `c` |
| SolrPager.NextHonest | src/oa_nlp/plos_api/solr.py:201-216 | against an honest endpoint, one `next()` below the cut-off yields the result under the cursor and keeps the between-calls invariant |
| SolrPager.NextHonestRefill | src/oa_nlp/plos_api/solr.py:205-216 | the refill case of `NextHonest`: the new page starts at the cursor |
| SolrPager.NextHonestBuffered | src/oa_nlp/plos_api/solr.py:212-216 | the buffered case of `NextHonest` |
| SolrPager.NextIsHonest | src/oa_nlp/plos_api/solr.py:201-216 | `next()` steps honestly from every state satisfying the between-calls invariant |
| SolrPager.RunHonestDocs | src/oa_nlp/plos_api/solr.py:201-216 | honest steps hand out exactly the results from the cursor to the cut-off, in order |
| SolrPager.RunHonestEnds | src/oa_nlp/plos_api/solr.py:202-210 | and then the loop ends with `StopIteration`, not an error |
| SolrPager.RunHonestFetches | src/oa_nlp/plos_api/solr.py:205-207 | having fetched one page each time the buffer ran out |
| SolrPager.HonestIteration | src/oa_nlp/plos_api/solr.py:169-216 | a loop over a fresh query receives exactly `results[start..min(limit, numFound)]`, ends normally, and fetches the fewest pages that hold them (one when there are none) |
| SolrPager.FreshIteration | src/oa_nlp/plos_api/solr.py:193-216 | the same for any state whose window fits the results |
| SolrPager.ZeroLimitIteration | src/oa_nlp/plos_api/solr.py:173 | with `limit = 0` the loop fetches one empty page and stops |
| SolrPager.IterateHonest | src/oa_nlp/plos_api/solr.py:193-216 | `__iter__` into the invariant followed by honest steps gives the same loop result |
| SolrPager.IterHonest | src/oa_nlp/plos_api/solr.py:182-198 | `__iter__` against an honest endpoint succeeds and establishes the between-calls invariant with the cut-off at `min(limit, numFound)` |
| SolrPager.PagesNeeded | src/oa_nlp/plos_api/solr.py:193-207 | the first page plus the refills is the least `k` with `m <= k * c` |
| SolrPager.PastLimitStaysPast | src/oa_nlp/plos_api/solr.py:186-187 | once the cursor is past `limit` it stays past, so the equality test never stops the loop; only a refill that returns an empty page does |
| SolrPager.StartBeyondMatchesRaises | src/oa_nlp/plos_api/solr.py:182-216 | with `start` beyond the last match the loop does not stop: it indexes the empty buffer and raises |
| SolrPager.Query.constructor | src/oa_nlp/plos_api/solr.py:169-180 | the new object's fields are `Init` |
| SolrPager.Query.FetchDocs | src/oa_nlp/plos_api/solr.py:182-190 | updates the fields in place as `Fetch` does |
| SolrPager.Query.Iter | src/oa_nlp/plos_api/solr.py:193-198 | updates the fields in place as `IterStep` does |
| SolrPager.Query.Next | src/oa_nlp/plos_api/solr.py:201-216 | updates the fields in place and returns the outcome as `NextStep` does |
| LegacyPager.LegacyInit | src/gitPLOS/search/solr.py:87-97 | page size `min(limit, maxRows)`; cursor at -1 on an empty page; no `q` or `fl` yet; the filter only in the openAccess variant; the same in openAccess/gitPLoS/search/query.py:82-93 |
| LegacyPager.QueryStep | src/gitPLOS/search/solr.py:152-183 | unless iterating, sets `q` (only for non-empty args) and `fl`; a page replaces `docs` and `numFound`; a failed request changes only the map; in the openAccess copy (openAccess/gitPLoS/search/query.py:127-155) a page also records the header's `status` and `QTime` |
| LegacyPager.LegacyIter | src/gitPLOS/search/solr.py:100-107 | resets the cursor to -1 in the `Search` variant; does nothing in the `OpenAccess` variant (query.py:96-97) |
| LegacyPager.PyIndex | src/gitPLOS/search/solr.py:125 | Python indexing: negative indexes count from the end; out of range is an `IndexError` |
| LegacyPager.RefillRows | src/gitPLOS/search/solr.py:113-118 | a refill asks for a full page, or only what is left below `limit` |
| LegacyPager.LegacyNext | src/gitPLOS/search/solr.py:109-125 | advances the cursor; off the page, moves `start` past it, stops at `limit` or `numFound`, else refetches there and restarts the cursor; yields the document under the cursor; the same in openAccess/gitPLoS/search/query.py:99-115 |
| LegacyPager.NothingBeforeQuery | src/gitPLOS/search/solr.py:87-125 | a loop over a query that was never sent receives nothing and fetches nothing, since `numFound` is still 0; this needs `start` not negative or at `limit` |
| LegacyPager.NegativeStartFetches | src/gitPLOS/search/solr.py:113-123 | the excluded case: a negative `start` below `limit` passes the stop test, and the first `next()` fetches |
| LegacyPager.OpenAccessSinglePass | openAccess/gitPLoS/search/query.py:96-115 | once a loop has stopped, a second loop raises `IndexError` on its first `next()` |
| LegacyPager.SearchReplaysLastPage | src/gitPLOS/search/solr.py:100-125 | a second loop restarts on the last page fetched and hands out its first document again |
| LegacyPager.LegacyNextHonest | src/gitPLOS/search/solr.py:109-125 | against an endpoint answering the query text, one `next()` yields the result at the running position below the cut-off and stops at it |
| LegacyPager.LegacyRefillHonest | src/gitPLOS/search/solr.py:110-123 | a refill fetches the slice starting at the running position |
| LegacyPager.LegacyNextIsHonest | src/gitPLOS/search/solr.py:109-125 | `next()` steps honestly from every between-calls state |
| LegacyPager.LegacyRunHonestDocs | src/gitPLOS/search/solr.py:109-125 | honest steps hand out the results from the running position to the cut-off, in order |
| LegacyPager.LegacyRunHonestEnds | src/gitPLOS/search/solr.py:114-115 | and then the loop ends with `StopIteration` |
| LegacyPager.LegacyHonestIteration | src/gitPLOS/search/solr.py:87-183 | `query()` then a loop receives exactly `results[start..min(limit, numFound)]` and ends normally, when the first page cannot pass `limit` |
| LegacyPager.FirstQueryHonest | src/gitPLOS/search/solr.py:152-175 | the first `query()` succeeds and establishes the between-calls invariant at `start` |
| LegacyPager.FirstPagePassesLimit | src/gitPLOS/search/solr.py:87-96 | the first page is asked for with `maxRows` rows whatever `start` is, so it can hand out documents past `limit` |
| LegacyPager.LegacyJournalClause | src/gitPLOS/search/solr.py:80-81 | `journal:(` + quoted names ` OR `-joined + `)`; `None` on an unknown id; the same in openAccess/gitPLoS/search/query.py:75-76 |
| LegacyPager.JournalClausesAgree | src/gitPLOS/search/solr.py:80-81 | the older clause is the newer one without the blanks inside the parentheses |
| LegacyPager.LegacyJournalClauseOne | src/gitPLOS/search/solr.py:80-81 | a one-journal clause names just that journal |
| LegacyPager.LegacySite | src/gitPLOS/search/solr.py:58-59 | the site of a four-part DOI whose id is known, looked up by the journal name without quotes |
| LegacyPager.LegacyArticleUrl | src/gitPLOS/search/solr.py:53-60 | site + `/article/` + quoted `info:doi/`DOI; fails exactly where the site lookup fails |
| LegacyPager.LegacyArticleXml | src/gitPLOS/search/solr.py:62-70 | site + the attachment action with the quoted DOI as `uri` + `&representation=XML` |
| LegacyPager.LegacyLinksNeedFourParts | src/gitPLOS/search/solr.py:53-70 | both older links, and the newer page link, fail on a DOI that is not four parts |
| LegacyPager.Query.constructor | src/gitPLOS/search/solr.py:87-97 | the new object's fields are `LegacyInit` |
| LegacyPager.Query.Query | src/gitPLOS/search/solr.py:152-183 | updates the fields as `QueryStep` does and returns the page's documents |
| LegacyPager.Query.Iter | src/gitPLOS/search/solr.py:100-107 | updates the fields as `LegacyIter` does |
| LegacyPager.Query.Next | src/gitPLOS/search/solr.py:109-125 | updates the fields and returns the outcome as `LegacyNext` does |
| Docs.Subjects | src/oa_nlp/nltk/plos_builder.py:117 | the `subject` list, or `[]` when the field is absent |
| Docs.Len | src/oa_nlp/nltk/plos_builder.py:168 | Python's `len`, the length of `tuple(v)`: what decides whether `[0]` exists |
| Docs.AsTuple | src/oa_nlp/nltk/plos_reader.py:175 | `tuple(v)`: a list keeps its items; a string falls apart into its characters |
| PyDict.Put | src/oa_nlp/nltk/plos_builder.py:124 | `d[k] = v`: a new key goes last in the order, an existing key keeps its place, and the order stays consistent with the map |
| CorpusUtil.TxtName | src/oa_nlp/nltk/util.py:16-18 | the DOI with every `/` turned into `-`, then `-`, the part and `.txt`, character by character; the same in src/gitPLOS/nltk/util.py:16-18, src/gitPLOS/nltk/corpus/util.py:16-18 and openAccess/gitPLoS/nltk/corpus/reader.py:8-22 |
| CorpusUtil.TxtNames | src/oa_nlp/nltk/util.py:19-20 | a list of DOIs gives one name per DOI, in order |
| CorpusUtil.JsonName | openAccess/gitPLoS/nltk/corpus/util.py:18-20 | the DOI with `/` turned into `-`, then `.json` |
| CorpusUtil.JsonNames | openAccess/gitPLoS/nltk/corpus/util.py:21-22 | a list of DOIs gives one JSON name per DOI, in order |
| CorpusUtil.TxtNameHasNoSlash | src/oa_nlp/nltk/util.py:16 | a text file name never holds a `/` (it names a file in the corpus directory itself) |
| CorpusUtil.JsonNameHasNoSlash | openAccess/gitPLoS/nltk/corpus/util.py:18 | nor does a JSON file name |
| CorpusUtil.TxtNameInjective | src/oa_nlp/nltk/util.py:16 | on DOIs without `-`, different DOIs get different names |
| CorpusUtil.TxtNameCollision | src/oa_nlp/nltk/util.py:16 | without that condition names collide: a `/` turned into `-` gives another DOI with the same name |
| CorpusUtil.Listafy | src/oa_nlp/nltk/util.py:22-31 | `None` gives every key of the dict once; a string gives a one-element list; a list comes back unchanged; the same in src/gitPLOS/nltk/util.py:22-31, src/gitPLOS/nltk/corpus/util.py:22-31, openAccess/gitPLoS/nltk/corpus/util.py:24-33 and openAccess/gitPLoS/nltk/corpus/reader.py:24-32 |
| CorpusUtil.FieldListToDict | src/oa_nlp/nltk/util.py:33-46 | exactly the listed keys, each holding the document's value or `''` where the document lacks it |
| PlosBuilder.MakeArticleInfo | src/oa_nlp/nltk/plos_builder.py:104-114 | the seven fields (`''` when missing), the pretty page and XML links, and the body and abstract file names; fails exactly where the link cannot be built |
| PlosBuilder.AppendUnder | src/oa_nlp/nltk/plos_builder.py:122 | `defaultdict(list)` append: the key gains `d` at the end; the other keys are untouched |
| PlosBuilder.AppendAllKeys | src/oa_nlp/nltk/plos_builder.py:121-122 | the loop touches exactly the listed categories |
| PlosBuilder.AppendAllAt | src/oa_nlp/nltk/plos_builder.py:121-122 | each category gains the DOI once per time it is listed, at the end |
| PlosBuilder.AppendAllMember | src/oa_nlp/nltk/plos_builder.py:121-122 | afterwards `x` is under `k` iff it was before, or `x` is the DOI and `k` is one of the subjects |
| PlosBuilder.RetainKeepsInverse | src/oa_nlp/nltk/plos_builder.py:116-122 | retaining a new DOI keeps the two category maps inverse |
| PlosBuilder.EmptyIndex | src/oa_nlp/nltk/plos_builder.py:94-102 | a new index is well formed and counts no documents |
| PlosBuilder.Retain | src/oa_nlp/nltk/plos_builder.py:116-126 | records the subjects under the DOI and the DOI under each subject, then the article record and the count; a bad DOI raises after the category maps changed |
| PlosBuilder.FreshEntryKeepsWellFormed | src/oa_nlp/nltk/plos_builder.py:116-126 | a fresh DOI with its categories and a record naming its files keeps an index well formed |
| PlosBuilder.InfoPutKeepsWellFormed | src/oa_nlp/nltk/plos_builder.py:124 | storing a record that names the DOI's files keeps every record naming its own |
| PlosBuilder.RetainKeepsWellFormed | src/oa_nlp/nltk/plos_builder.py:116-126 | `retain_info` of a new DOI keeps the index well formed: same DOIs in records and categories, inverse category maps |
| PlosBuilder.CorpusInfo.constructor | src/oa_nlp/nltk/plos_builder.py:94-102 | the new object finalizes to the empty index |
| PlosBuilder.CorpusInfo.RetainInfo | src/oa_nlp/nltk/plos_builder.py:116-126 | the loop over the subjects updates the object as `Retain` does |
| PlosBuilder.SevenWithTrainThree | src/oa_nlp/nltk/plos_builder.py:200-201 | with `train = 3`, the third and sixth of seven documents train: two training, five partial |
| PlosBuilder.NewBuilder | src/oa_nlp/nltk/plos_builder.py:143-151 | a new builder is balanced; the training index exists iff `train >= 1` |
| PlosBuilder.RouteStep | src/oa_nlp/nltk/plos_builder.py:199-204 | the routing half of `add`: it changes neither the full index nor the count, and fails exactly where the record cannot be built or a training document has no training index |
| PlosBuilder.AddStep | src/oa_nlp/nltk/plos_builder.py:186-207 | `add(doc)` succeeds exactly when the document has a string `id` whose links can be built, a training document has a training index, and the body and first abstract line can be written; without `id` nothing changes, a list `id` is counted and changes nothing else, any `id` is counted |
| PlosBuilder.AddRoutesFull | src/oa_nlp/nltk/plos_builder.py:196-204 | an accepted document is counted and retained in the full index, then routed, and the routing succeeds |
| PlosBuilder.RoutesTraining | src/oa_nlp/nltk/plos_builder.py:200-202 | when the count is a multiple of `train` it goes to the training index only |
| PlosBuilder.RoutesPartial | src/oa_nlp/nltk/plos_builder.py:203-204 | otherwise to the partial index only |
| PlosBuilder.RetainCounts | src/oa_nlp/nltk/plos_builder.py:116-126 | a successful retain adds one document and the DOI |
| PlosBuilder.StepKeepsCounts | src/oa_nlp/nltk/plos_builder.py:197-204 | counting in the full index and the routed one keeps full = total, training = its share, partial = the rest |
| PlosBuilder.StepKeepsKeys | src/oa_nlp/nltk/plos_builder.py:199-204 | the full index's DOIs stay those of partial and training together |
| PlosBuilder.StepKeepsBalanced | src/oa_nlp/nltk/plos_builder.py:196-204 | both facts together keep the builder balanced |
| PlosBuilder.AddKeepsBalanced | src/oa_nlp/nltk/plos_builder.py:186-207 | `add` keeps the builder balanced |
| PlosBuilder.AddAll | src/oa_nlp/nltk/plos_builder.py:171-184 | `build`: the documents are added in order and the indexes keep their key order; `AddAllFirst` states the steps |
| PlosBuilder.AddAllFirst | src/oa_nlp/nltk/plos_builder.py:182-183 | a build adds the first document, then the rest only if that succeeded |
| PlosBuilder.AddAllKeepsBalanced | src/oa_nlp/nltk/plos_builder.py:171-184 | a successful build keeps the builder balanced and counts every document |
| PlosBuilder.StrId | src/oa_nlp/nltk/plos_builder.py:196 | the document's `id`, defined exactly when it is a string |
| PlosBuilder.AddKeepsWellFormed | src/oa_nlp/nltk/plos_builder.py:186-207 | `add` of a DOI the builder has not seen keeps all three indexes well formed: inverse category maps, the same DOIs in records and categories, records naming their own files |
| PlosBuilder.AddFullDois | src/oa_nlp/nltk/plos_builder.py:196-199 | an accepted document adds exactly its DOI to the full index |
| PlosBuilder.AddAllKeepsWellFormed | src/oa_nlp/nltk/plos_builder.py:171-184 | a successful build over new, distinct DOIs leaves all three indexes well formed |
| PlosBuilder.FinalizeFiles | src/oa_nlp/nltk/plos_builder.py:209-225 | writes the full and partial indexes always, and the training one iff it exists, each to its own path |
| PlosBuilder.Builder.constructor | src/oa_nlp/nltk/plos_builder.py:143-151 | the object's fields are `NewBuilder` |
| PlosBuilder.Builder.Add | src/oa_nlp/nltk/plos_builder.py:186-207 | updates the count and the three `Corpus_info` objects in place as `AddStep` does, including on the failure paths; `_write_doc` only decides whether `add` raises |
| PlosBuilder.Builder.Route | src/oa_nlp/nltk/plos_builder.py:200-204 | updates the routed object as `RouteStep` does |
| PlosBuilder.Builder.Build | src/oa_nlp/nltk/plos_builder.py:171-184 | the loop over the documents updates the objects as `AddAll` does |
| PlosBuilder.Builder.Finalize | src/oa_nlp/nltk/plos_builder.py:209-225 | the files written are `FinalizeFiles` of the object's fields |
| LegacyBuilder.DoisUnderMember | src/gitPLOS/nltk/builder.py:76-77 | a DOI is listed under `s` iff a document with that DOI carries `s` |
| LegacyBuilder.LegacyLinks | src/gitPLOS/nltk/builder.py:79-81 | the page and XML links, which fail on the same DOIs |
| LegacyBuilder.InfoTupleOf | src/gitPLOS/nltk/builder.py:83-89 | `(journal, pub_date, type, title, author)` with `''` for a missing string field and `[]` for missing authors |
| LegacyBuilder.ScanDoc | src/gitPLOS/nltk/builder.py:67-89 | one document of the scan fails exactly on a missing string `id` or a DOI without links, and then changes no links |
| LegacyBuilder.Scan | src/gitPLOS/nltk/builder.py:67-89 | a successful scan saw only identified documents |
| LegacyBuilder.ScanCategories | src/gitPLOS/nltk/builder.py:74-77 | the batch's category map lists the DOIs carrying each category, in document order |
| LegacyBuilder.ScanFailedPrefix | src/gitPLOS/nltk/builder.py:67-68 | a scan that fails on a prefix fails on the whole batch with the same result |
| LegacyBuilder.ScanDoiKeys | src/gitPLOS/nltk/builder.py:74-89 | the batch's DOI maps have exactly the batch's DOIs as keys |
| LegacyBuilder.ScanDoiEntries | src/gitPLOS/nltk/builder.py:74-89 | with distinct DOIs, each holds its own document's subjects and tuple |
| LegacyBuilder.MergeC2d | src/gitPLOS/nltk/builder.py:112-116 | each category's list is extended by the batch's; a new category starts empty |
| LegacyBuilder.AddBatchExtendsCategories | src/gitPLOS/nltk/builder.py:109-118 | after a successful `add`, each category lists its old DOIs then the batch's carrying it; a failed `add` merges nothing |
| LegacyBuilder.AddBatchOverwritesDois | src/gitPLOS/nltk/builder.py:109-118 | the DOI maps gain the batch's DOIs and other DOIs keep their entries; with distinct DOIs, each batch DOI holds its own document's subjects and tuple |
| LegacyBuilder.DistinctDoiCount | src/gitPLOS/nltk/builder.py:91-92 | distinct DOIs are as many as the documents, so `zip` pairs every document with a file name |
| LegacyBuilder.AddBatchSucceeds | src/gitPLOS/nltk/builder.py:51-118 | `add` returns normally exactly when the scan does and the first `len(d2cmap)` documents have a string body and a first abstract line; with distinct DOIs, every document |
| LegacyBuilder.AddBatchKeepsInverse | src/gitPLOS/nltk/builder.py:51-118 | a batch of fresh, distinct DOIs keeps `c2d` and `d2c` inverse |
| LegacyBuilder.InverseAfterBatch | src/gitPLOS/nltk/builder.py:109-118 | the pointwise step of that proof, for one category and one DOI |
| LegacyBuilder.EmptyLegacyIndex | src/gitPLOS/nltk/builder.py:20-34 | a new index has empty link, category and info maps, which are trivially inverse |
| LegacyBuilder.InfoFile | src/gitPLOS/nltk/builder.py:126 | the index file's path is `root` extended by the 17 characters of `/corpus_info.json` |
| LegacyBuilder.BatchBuilder.constructor | src/gitPLOS/nltk/builder.py:20-34 | the object's index is `EmptyLegacyIndex` |
| LegacyBuilder.BatchBuilder.Build | src/gitPLOS/nltk/builder.py:36-49 | `add` then `finalize`: the index file holds `AddBatch` of the old index; nothing is written when `add` raises |
| LegacyBuilder.BatchBuilder.Finalize | src/gitPLOS/nltk/builder.py:121-129 | writes exactly the index file, holding the index |
| LegacyBuilder.BatchBuilder.Add | src/gitPLOS/nltk/builder.py:51-119 | the scan loop, the text dumps and the merge loop update the object as `AddBatch` does; a failed dump merges nothing |
| LegacyBuilder.BatchBuilder.WriteTexts | src/gitPLOS/nltk/builder.py:91-107 | the two dump loops run without raising exactly when each paired document has a string body and a first abstract line |
| LegacyBuilder.BatchBuilder.ScanOne | src/gitPLOS/nltk/builder.py:67-89 | one turn of the scan updates the links in place as `ScanDoc` does and leaves the merged maps alone |
| LegacyBuilder.BatchBuilder.MergeCategories | src/gitPLOS/nltk/builder.py:112-116 | the merge loop over the object's `c2d` computes `MergeC2d` |
| LegacyBuilder.MergeLoop | src/gitPLOS/nltk/builder.py:112-116 | the merge loop, taking the categories in any order, computes `MergeC2d` |
| LegacyBuilder.MergeStep | src/gitPLOS/nltk/builder.py:113-116 | one turn of the merge loop keeps its invariant |
| LegacyBuilder.MergedAll | src/gitPLOS/nltk/builder.py:112-116 | when every category is done, the map is the merge |
| LegacyBuilder.BuildDoc | openAccess/gitPLoS/nltk/corpus/builder.py:32-50 | one document of `build` fails exactly on a missing or non-string `id` or a DOI without links, and then changes nothing; `BuildFileids` and `BuildCategories` state what a success records |
| LegacyBuilder.BuildDocAsWritten | openAccess/gitPLoS/nltk/corpus/builder.py:48-50 | as written, a document without `subject` also fails; otherwise it agrees with `BuildDoc` |
| LegacyBuilder.SubjectlessDocAborts | openAccess/gitPLoS/nltk/corpus/builder.py:48-50 | any document without subjects whose links exist stops the build as written, but not as intended |
| LegacyBuilder.BuildAll | openAccess/gitPLoS/nltk/corpus/builder.py:32-50 | a successful build saw only identified documents |
| LegacyBuilder.BuildSnoc | openAccess/gitPLoS/nltk/corpus/builder.py:32 | building one more document after a successful prefix |
| LegacyBuilder.BuildFailedPrefix | openAccess/gitPLoS/nltk/corpus/builder.py:32-33 | a build that fails on a prefix fails on all with the same result |
| LegacyBuilder.BuildFileids | openAccess/gitPLoS/nltk/corpus/builder.py:33-39 | after a successful build every DOI has its JSON name and its two links; DOIs not built keep their entries |
| LegacyBuilder.BuildFileidsWithSolrLinks | openAccess/gitPLoS/nltk/corpus/builder.py:39 | with the links of `src/gitPLOS/search/solr.py`, every built DOI is a known-journal DOI and its links are on that journal's site |
| LegacyBuilder.BuildCategories | openAccess/gitPLoS/nltk/corpus/builder.py:42-47 | each subject's list is extended by the DOIs carrying it, in processing order |
| LegacyBuilder.CorpusBuilder.constructor | openAccess/gitPLoS/nltk/corpus/builder.py:13-21 | the new corpus has no file ids and no categories |
| LegacyBuilder.CorpusBuilder.Build | openAccess/gitPLoS/nltk/corpus/builder.py:23-60 | the loop updates the object as `BuildAll` does; the index file is written only when it succeeds |
| LegacyBuilder.CorpusBuilder.BuildOne | openAccess/gitPLoS/nltk/corpus/builder.py:32-50 | one turn of the loop, including the subject loop, updates the object as `BuildDoc` does |
| PlosReader.DoisAreIndexKeys | src/oa_nlp/nltk/plos_reader.py:126-129 | `dois()` lists each DOI of the index once |
| PlosReader.CatMapKeys | src/oa_nlp/nltk/plos_reader.py:122 | the keys of `cat_map` are the file names of the DOIs |
| PlosReader.CatMapExact | src/oa_nlp/nltk/plos_reader.py:122 | on DOIs without `-`, each file name maps to exactly its DOI's categories |
| PlosReader.LoadIndex | src/oa_nlp/nltk/plos_reader.py:102-104 | the index file of the corpus type, or `None` when it cannot be opened |
| PlosReader.OpenReader | src/oa_nlp/nltk/plos_reader.py:82-124 | opens exactly when the index file of the corpus type (default `full`) exists and no `fileids` is given, which would reach the superclass twice; document part defaults to `body`; file ids are the DOIs' names; `cat_map` keys categories by name; the same in src/oa_nlp/nltk/reader.py:82-124 |
| PlosReader.Requested | src/oa_nlp/nltk/plos_reader.py:135 | the given DOI list, or every DOI when none is given |
| PlosReader.ArticleInfos | src/oa_nlp/nltk/plos_reader.py:131-136 | each requested DOI with its record, in order; `None` on a DOI without one |
| PlosReader.FieldPairs | src/oa_nlp/nltk/plos_reader.py:138-201 | the per-field accessors (page and XML link, body and abstract file, date, type, title): each requested DOI with that field, in order; `None` where a lookup raises |
| PlosReader.Authors | src/oa_nlp/nltk/plos_reader.py:170-177 | each requested DOI with its author field as a tuple |
| PlosReader.WellFormedLookups | src/oa_nlp/nltk/plos_reader.py:131-168 | on a well-formed index, every DOI has a record, and its body and abstract files are the names derived from it |
| PlosReader.DefaultFileidsAreCatMapKeys | src/oa_nlp/nltk/plos_reader.py:116-122 | the default file ids are the keys of the category map |
| PlosReader.DefaultFileidsCategorized | src/oa_nlp/nltk/plos_reader.py:116-122 | on DOIs without `-`, each default file id holds exactly its DOI's categories |
| PlosReader.InfoPathInjective | src/oa_nlp/nltk/plos_reader.py:102 | different corpus types name different index files |
| PlosReader.ReadersOfBuild | src/oa_nlp/nltk/plos_reader.py:96-124 | over a builder's output, with no `fileids`, the full and partial readers open and the training reader opens iff `train >= 1`; with `fileids`, none opens |
| PlosReader.BuiltReadersWellFormed | src/oa_nlp/nltk/plos_reader.py:131-168 | a reader over a well-formed build finds a record for every DOI, naming the DOI's own body file |
| PlosReader.FullReaderDois | src/oa_nlp/nltk/plos_reader.py:126-129 | the full reader lists the DOIs of the partial and training readers, and no other |
| LegacyReader.Open | openAccess/gitPLoS/nltk/corpus/reader.py:48-77 | opens exactly when `corpus_info.json` exists and neither `doc_part` nor `fileids` is given (both stay in the keyword arguments); the part is then `body`, the file ids the names of the `d2c` keys, `cat_map` over `d2c` |
| LegacyReader.Requested | openAccess/gitPLoS/nltk/corpus/reader.py:24-32 | `_listafy` over `d2c`: every DOI once, one DOI, or the given list |
| LegacyReader.LinkPairs | openAccess/gitPLoS/nltk/corpus/reader.py:84 | each DOI zipped with its link; `None` on a DOI without one |
| LegacyReader.ArticleUrls | openAccess/gitPLoS/nltk/corpus/reader.py:79-84 | the requested DOIs with their page links |
| LegacyReader.ArticleXmls | openAccess/gitPLoS/nltk/corpus/reader.py:86-91 | the requested DOIs with their XML links |
| LegacyReader.Doi2Fid | openAccess/gitPLoS/nltk/corpus/reader.py:93-97 | the requested DOIs zipped with their text file names for the reader's part |
| LegacyReader.DefaultFileidsAreDoi2Fid | openAccess/gitPLoS/nltk/corpus/reader.py:65-97 | `doi2fid()` pairs each DOI with the reader's file id at the same place |
| LegacyReader.DefaultFileidsCategorized | openAccess/gitPLoS/nltk/corpus/reader.py:65-75 | on DOIs without `-`, each default file id is in `cat_map` with exactly its DOI's categories |
| LegacyReader.PairAll | openAccess/gitPLoS/nltk/corpus/reader.py:108 | one `(doi, author)` pair per item of the author field, in order |
| LegacyReader.AuthorPairsMember | openAccess/gitPLoS/nltk/corpus/reader.py:99-109 | a pair is listed iff its DOI is requested and the author is one of that DOI's; one pair per author |
| LegacyReader.Authors | openAccess/gitPLoS/nltk/corpus/reader.py:99-109 | the extend loop returns the author pairs of the requested DOIs; `None` on a DOI without information |
| LegacyReader.InterleavedShape | openAccess/gitPLoS/nltk/corpus/reader.py:116-120 | `extend((d, pd))` gives a flat list twice as long: each DOI at an even place with its value right after it |
| LegacyReader.InterleaveField | openAccess/gitPLoS/nltk/corpus/reader.py:111-142 | the loop shared by the three accessors returns that flat list |
| LegacyReader.PubDates | openAccess/gitPLoS/nltk/corpus/reader.py:111-120 | `pub_date`: DOIs interleaved with their dates |
| LegacyReader.ArticleTypes | openAccess/gitPLoS/nltk/corpus/reader.py:122-131 | `article_type`: DOIs interleaved with their types |
| LegacyReader.Titles | openAccess/gitPLoS/nltk/corpus/reader.py:133-142 | `title`: DOIs interleaved with their titles |
| LegacyReader.ReadBackBatch | openAccess/gitPLoS/nltk/corpus/reader.py:99-120 | a reader over the batch builder's output, given neither file ids nor a document part, opens, finds every batch DOI, reads back each document's own date and lists each DOI's own authors |
| Strings.Join | src/oa_nlp/plos_api/solr.py:142 | `sep.join(parts)`: empty for no parts, the part itself for one |
| Strings.JoinSnoc | src/oa_nlp/plos_api/solr.py:142 | one more part adds the separator and that part at the end |
| Strings.SplitShape | src/oa_nlp/plos_api/solr.py:110 | `s.split(c)` gives one piece more than `s` has separators, and no piece holds one |
| Strings.SplitJoin | src/oa_nlp/plos_api/solr.py:110 | joining the pieces of `s.split(c)` with `c` gives `s` back |
| Strings.SplitAtFirst | src/oa_nlp/plos_api/solr.py:110 | a separator-free prefix followed by a separator is the first piece |
| Strings.ReplaceChar | src/oa_nlp/nltk/util.py:16 | `s.replace(a, b)` on one character, place by place |
| Strings.ReplaceCharRemoves | src/oa_nlp/nltk/util.py:16 | after replacing `a` by another character no `a` is left |
| Strings.RemoveChar | src/gitPLOS/search/solr.py:59 | `s.replace('"', '')`: no quote is left, and the string is shorter by the number of quotes |
| Strings.StrLeTotal | src/gitPLOS/classifiers/kNN.py:72 | Python's string comparison, used when ties are sorted, is total |
| Strings.StrLeAntisymmetric | src/gitPLOS/classifiers/kNN.py:72 | and antisymmetric |
| Strings.StrLeTransitive | src/gitPLOS/classifiers/kNN.py:72 | and transitive |
| Sorting.SortBySorted | src/gitPLOS/classifiers/kNN.py:68 | `sorted` under a total order returns a sorted permutation |
| Sorting.SortedUnique | src/gitPLOS/classifiers/kNN.py:72 | two sorted permutations under an antisymmetric order are equal, so the sort has one result |
| Knn.Wrap | src/gitPLOS/classifiers/kNN.py:63-65 | a query that is not a list becomes a one-element list |
| Knn.ManhattanIsMetric | src/gitPLOS/classifiers/kNN.py:30-31 | on equal lengths the Manhattan distance is symmetric and zero exactly on equal vectors |
| Knn.MaxAbs | src/gitPLOS/classifiers/kNN.py:27-28 | the Chebyshev distance is the largest coordinate difference, attained at some place |
| Knn.ChebyshevAtMostManhattan | src/gitPLOS/classifiers/kNN.py:27-31 | the Chebyshev distance is at most the Manhattan distance |
| Knn.SquaredEuclideanZero | src/gitPLOS/classifiers/kNN.py:33-38 | on equal lengths the Euclidean distance is zero exactly on equal vectors |
| Knn.Distance | src/gitPLOS/classifiers/kNN.py:27-38 | each distance is defined exactly where the source's indexing and `max` do not raise, and is never negative |
| Knn.NeighbourOrder | src/gitPLOS/classifiers/kNN.py:68 | Python's order on `(distance, category, vector)` triples is total and antisymmetric |
| Knn.VoteOrder | src/gitPLOS/classifiers/kNN.py:72 | the reverse order on `(weight, category)` is total and antisymmetric |
| Knn.Neighbours | src/gitPLOS/classifiers/kNN.py:68 | one triple per training sample, in order; `None` exactly where a distance raises |
| Knn.Nearest | src/gitPLOS/classifiers/kNN.py:68-70 | the `k` nearest are defined exactly where every distance is; `NearestAreNearest` states which they are |
| Knn.NearestAreNearest | src/gitPLOS/classifiers/kNN.py:68-70 | there are `min(k, n)` voters (all but `-k` for negative `k`), and no voter is farther than a neighbour left out |
| Knn.NearInData | src/gitPLOS/classifiers/kNN.py:68-71 | every voter's category is a training category, so `weights[c] +=` never raises |
| Knn.ZeroWeightsFacts | src/gitPLOS/classifiers/kNN.py:69 | the weight dict's keys are exactly the training categories, all at zero |
| Knn.Tally | src/gitPLOS/classifiers/kNN.py:70-71 | the voting loop changes no key of the dict |
| Knn.TallyVotes | src/gitPLOS/classifiers/kNN.py:70-71 | each category ends at its start weight plus the votes of its own voters only |
| Knn.EqualVotes | src/gitPLOS/classifiers/kNN.py:46-47 | under `_eq_weight` the votes add up to the number of voters |
| Knn.VotesNonNegative | src/gitPLOS/classifiers/kNN.py:70-71 | with a non-negative weight function no category's votes are negative |
| Knn.VoteItemsKeys | src/gitPLOS/classifiers/kNN.py:72 | the pairs before the sort list the categories in key order |
| Knn.VoteItemsWeights | src/gitPLOS/classifiers/kNN.py:72 | each pair carries its category's votes |
| Knn.CalculateSpec | src/gitPLOS/classifiers/kNN.py:60-72 | `calculate` is defined exactly where every distance is |
| Knn.Calculate | src/gitPLOS/classifiers/kNN.py:60-72 | the method with the voting loop computes `CalculateSpec`; the same in openAccess/gitPLoS/classifiers/kNN.py:46-61 |
| Knn.Accumulate | src/gitPLOS/classifiers/kNN.py:70-71 | the voting loop computes `Tally` |
| Knn.CalculateSorted | src/gitPLOS/classifiers/kNN.py:72 | the result is sorted heaviest first and lists no category twice |
| Knn.CalculateVotes | src/gitPLOS/classifiers/kNN.py:68-72 | the result lists exactly the training categories, each with the votes of its own voters |
| Knn.CalculateNonNegative | src/gitPLOS/classifiers/kNN.py:70-72 | with a non-negative weight function every listed weight is at least zero |
| Knn.CalculateOrderFree | src/gitPLOS/classifiers/kNN.py:72 | whatever order `iteritems()` yields, the result is the same |
| Knn.CalculateTotal | src/gitPLOS/classifiers/kNN.py:69-72 | the listed weights add up to the weight all voters give |
| Knn.EqualWeightTotal | src/gitPLOS/classifiers/kNN.py:60-72 | under `_eq_weight` and `k >= 0` the weights add up to `min(k, len(data))` |
| Knn.Classify | src/gitPLOS/classifiers/kNN.py:74-80 | the head of `calculate`, or none for an empty list; the same in openAccess/gitPLoS/classifiers/kNN.py:63-69 |
| Knn.ClassifyHead | src/gitPLOS/classifiers/kNN.py:74-80 | a class is found exactly when there is training data, and it carries the largest weight |
| Knn.ExampleZero | openAccess/gitPLoS/classifiers/kNN.py:57 | in the model's insertion order the example's weight dict lists `a`, `b`, `c` (CPython 2.7 iterates it as `a`, `c`, `b`; `WorkedExampleAnyOrder` shows the order is immaterial) |
| Knn.WorkedExample | openAccess/gitPLoS/classifiers/kNN.py:71-76 | the `__main__` example (values doubled): the query draws two votes for `b` and one for `c`; the result is `[(2, b), (1, c), (0, a)]` |
| Knn.WorkedExampleAnyOrder | openAccess/gitPLoS/classifiers/kNN.py:57-62 | the example's result is the same in whatever order `iteritems()` yields the weights, CPython's `a`, `c`, `b` included |

## Left out

- HTTP and JSON. `_do_get`, `_do_query`, `_doQuery`, `mkQueryUrl` and `_build_solr_url` are not modelled: the endpoint is a function from the requested window to a page or a failure. URL quoting is a function parameter.
- The decimal text of `start` and `rows`. The request map keeps them as numbers; `str()` is not modelled.
- Files and directories. `os.mkdir`, `open`, `json.dump`/`json.load`, `codecs.open` and the body and abstract text files are not modelled. An index file is a path mapped to the record it holds. Only whether `_write_doc` (src/oa_nlp/nltk/plos_builder.py:159-169) and the text dumps of src/gitPLOS/nltk/builder.py:91-107 raise is modelled (`Docs.Writable`): a missing `body` or `abstract`, a list body, or an empty abstract. The text written, and encoding errors, are not.
- The text dumps of src/gitPLOS/nltk/builder.py:91-107 pair `d2cmap.keys()` with `docs` in an unspecified order, so which text goes into which file is not modelled.
- `datetime.now()` is a parameter, the creation date.
- The NLTK superclass `CategorizedPlaintextCorpusReader` is not part of this model. The readers compute what they hand it: the file ids and `cat_map`. That it accepts neither a second `fileids` nor a `doc_part` keyword (a `TypeError`) is taken from its signature.
- `print`, verbose output, `__enter__`/`__exit__`, the command-line `__main__` blocks, `bin/`, `setup.py` and `src/oa_nlp/nltk/builder.py` (which does not parse) are not part of this model.
- Floating point in kNN. Vectors and weights are integers. `_vec_minkowski` (fractional powers) and the scalar `_euclidean_dist` (never the default) are not modelled.
- Knn.Distance: the Euclidean distance is modelled by its square. The square root is increasing, so neighbours sort the same and every vote is the same, but the distance values in the triples are squares.
- Knn.WorkedExample: states the `__main__` example with every value doubled so that the data are integers; the distances are scaled, the votes are not.
- Knn.Calculate: reads `self.data` where both sources read a module-level `data` at kNN.py:69 (kNN.py:57 in the openAccess copy). Outside the openAccess `__main__` block that name is undefined and the source raises `NameError`.
- PlosBuilder.AddStep: routes with `self.train` where the source reads a module-level `train` at src/oa_nlp/nltk/plos_builder.py:201. That name is defined only by the script's `__main__`.
- LegacyBuilder.BatchBuilder.Add: uses `defaultdict`, which src/gitPLOS/nltk/builder.py does not import. Both older builders are given the link function as a parameter. They import `articleUrl`/`articleXML` from `gitPLoS.search.query`, whose two-argument versions they call with one argument. The model uses the one-argument forms of src/gitPLOS/search/solr.py, `LegacyLinkFn`.
- LegacyReader.ArticleUrls: reads `d2c` from the loaded index. At openAccess/gitPLoS/nltk/corpus/reader.py:82 the source reads `self.corpus_info`, which is never set.
- SolrPager.Query.constructor: requires a query string that can be built. The source raises inside `__init__` on an unknown journal id or an empty journal list. `SolrPager.Init` models that case as `None`.
- LegacyBuilder.ScanDoc, LegacyBuilder.BatchBuilder.Add: documents are values, so the scan's `doc['subject'] = []` on a document without subjects (src/gitPLOS/nltk/builder.py:70-71) is not visible to the caller; the model only reads such a document's subjects as `[]`.
- PlosBuilder.Retain, LegacyBuilder.ScanDoc, LegacyBuilder.BuildDoc: a `subject` field holding a string rather than a list is not modelled (Python would iterate its characters). Every document is required to carry a list there.
- PlosReader.Dois, PlosReader.OpenReader, Knn.ZeroWeights: list the keys of a plain dict (`dois_to_categories` reloaded by `json.load` at src/oa_nlp/nltk/plos_reader.py:104; the weight dict at openAccess/gitPLoS/classifiers/kNN.py:57 and src/gitPLOS/classifiers/kNN.py:69) in insertion order. Python 2 lists them in hash order, so the order of `dois()`, of the default file ids and of every all-DOIs answer is not the source's. The reader lemmas state membership only, and `Knn.CalculateOrderFree` shows `calculate` does not depend on the order.
- CorpusUtil.Listafy: for `None`, states only that every key appears once, not the order. Python 2 leaves `keys()` order unspecified. The older reader's key order is a parameter of `LegacyReader.Open`.
- Loops over a cursor (`SolrPager.Iterate`, `LegacyPager.LegacyLoop`) take a fuel bound on the number of `next()` calls. The lemmas assume fuel beyond the number of documents; an endless loop is not modelled.
- `__getitem__` of the older cursors is not modelled; it takes no index and is never called.
- `status` and `QTime` of the newer endpoint's response are not used by the newer cursor, so only the older openAccess cursor records them.

## Findings

| source | as written | input that shows it | evidently intended | confidence | as-written member | corrected member |
|---|---|---|---|---|---|---|
| openAccess/gitPLoS/nltk/corpus/builder.py:48-50 | a document without `subject` evaluates `verbsoe`, an undefined name, so `build` raises `NameError` after recording that document's file entry | `build([{'id': '10.1371/journal.pone.0000001'}])` under the one-argument link functions (`LegacyLinkFn`) that replace the two-argument `articleUrl`/`articleXML` of openAccess/gitPLoS/search/query.py:52-62; with those, every document raises `TypeError` at :39 first | `verbose`: report the document only when verbose, add no categories, and go on with the build | high; not executed | LegacyBuilder.BuildDocAsWritten, LegacyBuilder.SubjectlessDocAborts | LegacyBuilder.BuildDoc, LegacyBuilder.BuildCategories |
