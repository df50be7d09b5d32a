/**
 * The corpus builder of `src/oa_nlp/nltk/plos_builder.py`. A `CorpusInfo`
 * accumulates the index of one corpus in place: the category of each DOI,
 * the DOIs of each category (an append-only inverse index), a record of
 * article information per DOI, and a document count. A `Builder` feeds every
 * document to the full index, and each one either to the training index
 * (every `train`-th document) or to the partial index.
 *
 * Writing the text files and the JSON index files is not modelled; the
 * index a file would hold is the record `Finalize` returns, keyed by the
 * file's path.
 */
module PlosBuilder {
  import opened Wrappers
  import opened Docs
  import opened PyDict
  import opened CorpusUtil
  import opened SolrQuery

  /** The fields copied from a document into its article information. */
  const InfoFields: seq<string> := ["title", "author", "editor", "publication_date", "article_type", "journal", "id"]

  /** The pretty links are not URL-quoted, so the quoting function is never applied. */
  function Verbatim(s: string): string { s }

  /** The information kept per article: its fields and the four derived entries. */
  type ArticleInfo = map<string, Value>

  /**
   * `_article_info(doc, doi)`: the seven fields, `''` for the missing ones,
   * the page and XML links of the DOI (pretty form) and the names of its
   * body and abstract files. `None` where building a link raises: a DOI that
   * is not four `.`-separated parts or names an unknown journal.
   */
  function MakeArticleInfo(doc: Doc, doi: string): (r: Option<ArticleInfo>)
    ensures r.Some? <==> JournalUrl(doi).Some?
    ensures r.Some? ==> forall k :: k in InfoFields ==> k in r.value && r.value[k] == if k in doc then doc[k] else Str("")
    ensures r.Some? ==> "page_url" in r.value && r.value["page_url"] == Str(ArticlePageUrl(doi, true, Verbatim).value)
    ensures r.Some? ==> "xml_url" in r.value && r.value["xml_url"] == Str(ArticleXmlUrl(doi, true, Verbatim).value)
    ensures r.Some? ==> "body_fid" in r.value && r.value["body_fid"] == Str(TxtName(doi, "body"))
    ensures r.Some? ==> "abstract_fid" in r.value && r.value["abstract_fid"] == Str(TxtName(doi, "abstract"))
  {
    match JournalUrl(doi)
    case None => None
    case Some(_) =>
      var base := FieldListToDict(doc, InfoFields);
      Some(base["page_url" := Str(ArticlePageUrl(doi, true, Verbatim).value)]
               ["xml_url" := Str(ArticleXmlUrl(doi, true, Verbatim).value)]
               ["body_fid" := Str(TxtName(doi, "body"))]
               ["abstract_fid" := Str(TxtName(doi, "abstract"))])
  }

  /** `defaultdict(list)` lookup: the list under `k`, or the empty list. */
  function Get(m: map<string, seq<string>>, k: string): seq<string> {
    if k in m then m[k] else []
  }

  /** `m[k].append(d)` on a `defaultdict(list)`. */
  function AppendUnder(m: map<string, seq<string>>, k: string, d: string): (r: map<string, seq<string>>)
    ensures r.Keys == m.Keys + {k}
    ensures r[k] == Get(m, k) + [d]
    ensures forall j :: j in m && j != k ==> r[j] == m[j]
  {
    m[k := Get(m, k) + [d]]
  }

  /** Appending `d` under each of `subjs`, first to last. */
  function AppendAll(m: map<string, seq<string>>, subjs: seq<string>, d: string): map<string, seq<string>> {
    if |subjs| == 0 then m
    else AppendUnder(AppendAll(m, subjs[..|subjs| - 1], d), subjs[|subjs| - 1], d)
  }

  function Occurrences(s: seq<string>, k: string): nat {
    if |s| == 0 then 0
    else Occurrences(s[..|s| - 1], k) + (if s[|s| - 1] == k then 1 else 0)
  }

  function Copies(d: string, n: nat): (r: seq<string>)
    ensures |r| == n && forall i :: 0 <= i < n ==> r[i] == d
  {
    seq(n, _ => d)
  }

  /** Appending touches exactly the categories listed ... */
  lemma {:induction false} AppendAllKeys(m: map<string, seq<string>>, subjs: seq<string>, d: string)
    ensures AppendAll(m, subjs, d).Keys == m.Keys + set s | s in subjs
  {
    if |subjs| > 0 {
      var front := subjs[..|subjs| - 1];
      AppendAllKeys(m, front, d);
      assert (set s | s in subjs) == (set s | s in front) + {subjs[|subjs| - 1]} by {
        assert subjs == front + [subjs[|subjs| - 1]];
      }
    }
  }

  /** ... and each of them gains `d` once per time it is listed. */
  lemma {:induction false} AppendAllAt(m: map<string, seq<string>>, subjs: seq<string>, d: string, k: string)
    ensures Get(AppendAll(m, subjs, d), k) == Get(m, k) + Copies(d, Occurrences(subjs, k))
  {
    if |subjs| > 0 {
      var front := subjs[..|subjs| - 1];
      AppendAllAt(m, front, d, k);
      if subjs[|subjs| - 1] == k {
        assert Copies(d, Occurrences(front, k)) + [d] == Copies(d, Occurrences(front, k) + 1);
      }
    }
  }

  lemma {:induction false} OccurrencesPositive(s: seq<string>, k: string)
    ensures Occurrences(s, k) > 0 <==> k in s
  {
    if |s| > 0 {
      OccurrencesPositive(s[..|s| - 1], k);
      assert s == s[..|s| - 1] + [s[|s| - 1]];
    }
  }

  /** After appending, `x` is listed under `k` iff it was before, or it is `d` and `k` is one of `subjs`. */
  lemma AppendAllMember(m: map<string, seq<string>>, subjs: seq<string>, d: string, k: string, x: string)
    ensures x in Get(AppendAll(m, subjs, d), k) <==> x in Get(m, k) || (x == d && k in subjs)
  {
    AppendAllAt(m, subjs, d, k);
    OccurrencesPositive(subjs, k);
    var c := Copies(d, Occurrences(subjs, k));
    if Occurrences(subjs, k) > 0 {
      assert c[0] == d;
    }
  }

  /** The two category maps are inverse: `d` is listed under `s` exactly when `s` is among `d`'s categories. */
  ghost predicate Inverse(c2d: map<string, seq<string>>, d2c: map<string, seq<string>>) {
    forall s, d :: d in Get(c2d, s) <==> d in d2c && s in d2c[d]
  }

  /** Retaining a DOI not seen before keeps the two maps inverse. */
  lemma RetainKeepsInverse(c2d: map<string, seq<string>>, d2c: map<string, seq<string>>, subjs: seq<string>, doi: string)
    requires Inverse(c2d, d2c)
    requires doi !in d2c
    ensures Inverse(AppendAll(c2d, subjs, doi), d2c[doi := subjs])
  {
    var c2d' := AppendAll(c2d, subjs, doi);
    var d2c' := d2c[doi := subjs];
    forall s, d ensures d in Get(c2d', s) <==> d in d2c' && s in d2c'[d] {
      AppendAllMember(c2d, subjs, doi, s, d);
    }
  }

  /** Every article record carries the file names derived from its DOI. */
  ghost predicate InfoWellFormed(info: map<string, ArticleInfo>) {
    forall d :: d in info ==>
      && "body_fid" in info[d] && info[d]["body_fid"] == Str(TxtName(d, "body"))
      && "abstract_fid" in info[d] && info[d]["abstract_fid"] == Str(TxtName(d, "abstract"))
  }

  /** What `Corpus_info.finalize` returns, which the readers load back. */
  datatype IndexRecord = IndexRecord(
    desc: string,
    documentCount: int,
    creationDate: string,
    query: seq<string>,
    categoriesToDois: map<string, seq<string>>,
    doisToCategories: Dict<seq<string>>,
    doiArticleInfo: Dict<ArticleInfo>)

  /** The insertion-ordered dicts of an index are consistent, so that they can be updated. */
  ghost predicate OrderedIndex(r: IndexRecord) {
    r.doisToCategories.Valid() && r.doiArticleInfo.Valid()
  }

  /** An index as retaining fresh DOIs leaves it. */
  ghost predicate WellFormedIndex(r: IndexRecord) {
    && OrderedIndex(r)
    && r.doiArticleInfo.vals.Keys == r.doisToCategories.vals.Keys
    && Inverse(r.categoriesToDois, r.doisToCategories.vals)
    && InfoWellFormed(r.doiArticleInfo.vals)
  }

  /** An empty index, as `Corpus_info.__init__` starts it. */
  function EmptyIndex(query: seq<string>, desc: string, creationDate: string): (r: IndexRecord)
    ensures WellFormedIndex(r) && r.documentCount == 0
  {
    IndexRecord(desc, 0, creationDate, query, map[], Empty(), Empty())
  }

  /** The index after `retain_info`, and whether it returned normally. */
  datatype Retained = Retained(rec: IndexRecord, ok: bool)

  /**
   * `retain_info(doc, doi)`: record the document's subjects (or `[]`) as
   * the DOI's categories, list the DOI under each subject, then store the
   * article information and count the document. Building the article
   * information raises on a malformed DOI; by then both category maps
   * have been updated.
   */
  function Retain(rec: IndexRecord, doc: Doc, doi: string): (r: Retained)
    requires SubjectIsList(doc) && OrderedIndex(rec)
    ensures OrderedIndex(r.rec)
    ensures r.rec.doisToCategories == rec.doisToCategories.Put(doi, Subjects(doc))
    ensures r.rec.categoriesToDois == AppendAll(rec.categoriesToDois, Subjects(doc), doi)
    ensures r.ok <==> MakeArticleInfo(doc, doi).Some?
    ensures r.ok ==> r.rec.doiArticleInfo == rec.doiArticleInfo.Put(doi, MakeArticleInfo(doc, doi).value)
    ensures r.ok ==> r.rec.documentCount == rec.documentCount + 1
    ensures !r.ok ==> r.rec.doiArticleInfo == rec.doiArticleInfo && r.rec.documentCount == rec.documentCount
    ensures r.rec.desc == rec.desc && r.rec.creationDate == rec.creationDate && r.rec.query == rec.query
  {
    var subjs := Subjects(doc);
    var rec1 := rec.(doisToCategories := rec.doisToCategories.Put(doi, subjs),
                     categoriesToDois := AppendAll(rec.categoriesToDois, subjs, doi));
    match MakeArticleInfo(doc, doi)
    case None => Retained(rec1, false)
    case Some(info) =>
      Retained(rec1.(doiArticleInfo := rec.doiArticleInfo.Put(doi, info), documentCount := rec.documentCount + 1), true)
  }

  /**
   * Adding a fresh DOI with its categories, listing it under each of them and
   * storing article information that names its files keeps an index well formed.
   */
  lemma FreshEntryKeepsWellFormed(rec: IndexRecord, rec': IndexRecord, doi: string, subjs: seq<string>, info: ArticleInfo)
    requires WellFormedIndex(rec) && OrderedIndex(rec')
    requires doi !in rec.doisToCategories.vals
    requires rec'.doisToCategories.vals == rec.doisToCategories.vals[doi := subjs]
    requires rec'.categoriesToDois == AppendAll(rec.categoriesToDois, subjs, doi)
    requires rec'.doiArticleInfo.vals == rec.doiArticleInfo.vals[doi := info]
    requires "body_fid" in info && info["body_fid"] == Str(TxtName(doi, "body"))
    requires "abstract_fid" in info && info["abstract_fid"] == Str(TxtName(doi, "abstract"))
    ensures WellFormedIndex(rec')
  {
    RetainKeepsInverse(rec.categoriesToDois, rec.doisToCategories.vals, subjs, doi);
    InfoPutKeepsWellFormed(rec.doiArticleInfo.vals, doi, info);
  }

  /** Storing a record that names the DOI's files keeps every record naming its own. */
  lemma InfoPutKeepsWellFormed(info: map<string, ArticleInfo>, doi: string, a: ArticleInfo)
    requires InfoWellFormed(info)
    requires "body_fid" in a && a["body_fid"] == Str(TxtName(doi, "body"))
    requires "abstract_fid" in a && a["abstract_fid"] == Str(TxtName(doi, "abstract"))
    ensures InfoWellFormed(info[doi := a])
  {
  }

  /**
   * Retaining a DOI the index has not seen keeps it well formed: the
   * article information and the categories have the same DOIs, and the
   * category maps stay inverse.
   */
  lemma RetainKeepsWellFormed(rec: IndexRecord, doc: Doc, doi: string)
    requires SubjectIsList(doc) && WellFormedIndex(rec)
    requires doi !in rec.doisToCategories.vals
    ensures Retain(rec, doc, doi).ok ==> WellFormedIndex(Retain(rec, doc, doi).rec)
  {
    var r := Retain(rec, doc, doi);
    if r.ok {
      FreshEntryKeepsWellFormed(rec, r.rec, doi, Subjects(doc), MakeArticleInfo(doc, doi).value);
    }
  }

  /** `Corpus_info`; the creation time stamp is given, not read from the clock. */
  class CorpusInfo {
    const creationDate: string
    const desc: string
    const query: seq<string>
    var docCount: int
    var categoriesToDois: map<string, seq<string>>
    var doisToCategories: Dict<seq<string>>
    var doiArticleInfo: Dict<ArticleInfo>

    constructor (query: seq<string>, desc: string, creationDate: string)
      ensures Finalize() == EmptyIndex(query, desc, creationDate)
    {
      this.creationDate := creationDate;
      this.desc := desc;
      this.docCount := 0;
      this.query := query;
      this.categoriesToDois := map[];
      this.doisToCategories := Empty();
      this.doiArticleInfo := Empty();
    }

    /** `retain_info(doc, doi)`; `ok` is false where the Python method raises. */
    method RetainInfo(doc: Doc, doi: string) returns (ok: bool)
      requires SubjectIsList(doc)
      requires OrderedIndex(Finalize())
      modifies this
      ensures Retained(Finalize(), ok) == Retain(old(Finalize()), doc, doi)
    {
      var subjs := Subjects(doc);
      doisToCategories := doisToCategories.Put(doi, subjs);
      for i := 0 to |subjs|
        invariant categoriesToDois == AppendAll(old(categoriesToDois), subjs[..i], doi)
        invariant doisToCategories == old(doisToCategories).Put(doi, subjs)
        invariant doiArticleInfo == old(doiArticleInfo) && docCount == old(docCount)
      {
        assert subjs[..i + 1][..i] == subjs[..i];
        categoriesToDois := AppendUnder(categoriesToDois, subjs[i], doi);
      }
      assert subjs[..|subjs|] == subjs;
      var info := MakeArticleInfo(doc, doi);
      if info.None? {
        return false;
      }
      doiArticleInfo := doiArticleInfo.Put(doi, info.value);
      docCount := docCount + 1;
      ok := true;
    }

    /** `finalize()`. */
    function Finalize(): IndexRecord
      reads this
    {
      IndexRecord(desc, docCount, creationDate, query, categoriesToDois, doisToCategories, doiArticleInfo)
    }
  }

  /** The routing rule of `add`: with `train > 0`, every document whose running count is a multiple of it trains. */
  predicate ToTraining(train: int, count: int) {
    train > 0 && count % train == 0
  }

  /** The documents among the first `n` that go to training. */
  function TrainingCount(train: int, n: int): nat
    decreases n
  {
    if n <= 0 then 0 else TrainingCount(train, n - 1) + if ToTraining(train, n) then 1 else 0
  }

  /** With `train = 3`, of seven documents the third and the sixth train: two training, five partial. */
  lemma SevenWithTrainThree()
    ensures forall c :: 1 <= c <= 7 ==> (ToTraining(3, c) <==> c == 3 || c == 6)
    ensures TrainingCount(3, 7) == 2 && 7 - TrainingCount(3, 7) == 5
  {
  }

  /** The builder's state: the document total, `train`, and the three indexes. */
  datatype BuilderState = BuilderState(total: int, train: int, full: IndexRecord, partial: IndexRecord,
                                       training: Option<IndexRecord>)

  ghost predicate OrderedState(st: BuilderState) {
    OrderedIndex(st.full) && OrderedIndex(st.partial) && (st.training.Some? ==> OrderedIndex(st.training.value))
  }

  /** The DOIs retained in an optional index. */
  function DoisOf(r: Option<IndexRecord>): set<string> {
    if r.Some? then r.value.doisToCategories.vals.Keys else {}
  }

  /**
   * What `add` keeps: the training index exists iff `train >= 1`; the full
   * index counted every document; training counted those the routing rule
   * sent there and partial the rest; and the full index's DOIs are those of
   * the other two together.
   */
  ghost predicate Balanced(st: BuilderState) {
    && OrderedState(st)
    && 0 <= st.total
    && (st.training.Some? <==> st.train >= 1)
    && st.full.documentCount == st.total
    && (st.training.Some? ==> st.training.value.documentCount == TrainingCount(st.train, st.total))
    && st.partial.documentCount == st.total - TrainingCount(st.train, st.total)
    && st.full.doisToCategories.vals.Keys == st.partial.doisToCategories.vals.Keys + DoisOf(st.training)
  }

  /** A new builder: nothing counted, three empty indexes, the training one only for `train >= 1`. */
  function NewBuilder(query: seq<string>, desc: string, train: int, creationDate: string): (st: BuilderState)
    ensures Balanced(st)
  {
    var e := EmptyIndex(query, desc, creationDate);
    BuilderState(0, train, e, e, if train < 1 then None else Some(e))
  }

  datatype Added = Added(st: BuilderState, ok: bool)

  /**
   * The routing half of `add`, on a state whose total already counts the
   * document: retain it in the training index when the count is a multiple
   * of `train`, in the partial index otherwise. A missing training index
   * raises, as `None.retain_info` would.
   */
  function RouteStep(st: BuilderState, doc: Doc, doi: string): (r: Added)
    requires SubjectIsList(doc) && OrderedState(st)
    ensures OrderedState(r.st) && r.st.train == st.train && r.st.total == st.total && r.st.full == st.full
    ensures r.ok <==> MakeArticleInfo(doc, doi).Some? && (ToTraining(st.train, st.total) ==> st.training.Some?)
  {
    if ToTraining(st.train, st.total) then
      match st.training
      case None => Added(st, false)
      case Some(t) =>
        var r := Retain(t, doc, doi);
        Added(st.(training := Some(r.rec)), r.ok)
    else
      var r := Retain(st.partial, doc, doi);
      Added(st.(partial := r.rec), r.ok)
  }

  /**
   * `add(doc)`: count the document, retain it in the full index, route it,
   * then write its text files. Not `ok` where the Python method raises: no
   * `id` at all (before anything changes); an `id` that is a list (counted,
   * then `retain_info` fails on it as a dict key before touching the index);
   * a DOI no link can be built for; or a document whose body or first
   * abstract line cannot be written, after it has been indexed everywhere.
   */
  function AddStep(st: BuilderState, doc: Doc): (r: Added)
    requires SubjectIsList(doc) && OrderedState(st)
    ensures OrderedState(r.st) && r.st.train == st.train
    ensures r.ok <==>
      "id" in doc && doc["id"].Str? && MakeArticleInfo(doc, doc["id"].s).Some? &&
      (ToTraining(st.train, st.total + 1) ==> st.training.Some?) && Writable(doc)
    ensures "id" !in doc ==> r.st == st
    ensures "id" in doc && !doc["id"].Str? ==> r.st == st.(total := st.total + 1)
    ensures "id" in doc ==> r.st.total == st.total + 1
  {
    if "id" !in doc then Added(st, false)
    else if !doc["id"].Str? then Added(st.(total := st.total + 1), false)
    else
      var doi := doc["id"].s;
      var f := Retain(st.full, doc, doi);
      var st1 := st.(total := st.total + 1, full := f.rec);
      if !f.ok then Added(st1, false)
      else
        var rt := RouteStep(st1, doc, doi);
        if !rt.ok then rt else Added(rt.st, Writable(doc))
  }

  /** A document `add` accepts is counted, retained in the full index, and then routed. */
  lemma AddRoutesFull(st: BuilderState, doc: Doc)
    requires SubjectIsList(doc) && OrderedState(st)
    requires AddStep(st, doc).ok
    ensures Retain(st.full, doc, doc["id"].s).ok
    ensures var doi := doc["id"].s;
      var rt := RouteStep(st.(total := st.total + 1, full := Retain(st.full, doc, doi).rec), doc, doi);
      rt.ok && AddStep(st, doc).st == rt.st
  {
  }

  /** A routed document goes to the training index when the routing rule says so, leaving the partial one alone ... */
  lemma RoutesTraining(st: BuilderState, doc: Doc, doi: string)
    requires SubjectIsList(doc) && OrderedState(st)
    requires RouteStep(st, doc, doi).ok && ToTraining(st.train, st.total)
    ensures st.training.Some? && var r := RouteStep(st, doc, doi).st;
      r.training == Some(Retain(st.training.value, doc, doi).rec) && r.partial == st.partial
  {
  }

  /** ... and otherwise to the partial index, leaving the training one alone. */
  lemma RoutesPartial(st: BuilderState, doc: Doc, doi: string)
    requires SubjectIsList(doc) && OrderedState(st)
    requires RouteStep(st, doc, doi).ok && !ToTraining(st.train, st.total)
    ensures var r := RouteStep(st, doc, doi).st;
      r.partial == Retain(st.partial, doc, doi).rec && r.training == st.training
  {
  }

  /** What retaining a fresh DOI does to an index's count and DOIs. */
  lemma RetainCounts(rec: IndexRecord, doc: Doc, doi: string)
    requires SubjectIsList(doc) && OrderedIndex(rec)
    ensures var r := Retain(rec, doc, doi);
      r.ok ==> r.rec.documentCount == rec.documentCount + 1 &&
               r.rec.doisToCategories.vals.Keys == rec.doisToCategories.vals.Keys + {doi}
  {
  }

  /** Counting a document in the full index and in the index the routing rule names keeps the counts balanced ... */
  lemma StepKeepsCounts(st: BuilderState, st': BuilderState)
    requires Balanced(st)
    requires st'.train == st.train && st'.total == st.total + 1
    requires st'.full.documentCount == st.full.documentCount + 1
    requires ToTraining(st.train, st'.total) ==>
      && st.training.Some? && st'.training.Some? && st'.partial.documentCount == st.partial.documentCount
      && st'.training.value.documentCount == st.training.value.documentCount + 1
    requires !ToTraining(st.train, st'.total) ==>
      && st'.training.Some? == st.training.Some?
      && (st.training.Some? ==> st'.training.value.documentCount == st.training.value.documentCount)
      && st'.partial.documentCount == st.partial.documentCount + 1
    ensures 0 <= st'.total && (st'.training.Some? <==> st'.train >= 1)
    ensures st'.full.documentCount == st'.total
    ensures st'.training.Some? ==> st'.training.value.documentCount == TrainingCount(st'.train, st'.total)
    ensures st'.partial.documentCount == st'.total - TrainingCount(st'.train, st'.total)
  {
  }

  /** ... and adding its DOI to both keeps the full index's DOIs those of the other two. */
  lemma StepKeepsKeys(st: BuilderState, st': BuilderState, doi: string)
    requires Balanced(st)
    requires st'.full.doisToCategories.vals.Keys == st.full.doisToCategories.vals.Keys + {doi}
    requires ToTraining(st.train, st'.total) ==>
      && st.training.Some? && st'.training.Some? && st'.partial == st.partial
      && st'.training.value.doisToCategories.vals.Keys == st.training.value.doisToCategories.vals.Keys + {doi}
    requires !ToTraining(st.train, st'.total) ==>
      && st'.training == st.training
      && st'.partial.doisToCategories.vals.Keys == st.partial.doisToCategories.vals.Keys + {doi}
    ensures st'.full.doisToCategories.vals.Keys == st'.partial.doisToCategories.vals.Keys + DoisOf(st'.training)
  {
  }

  /**
   * One step that counts a document in the full index and in the index the
   * routing rule names, and adds its DOI to both, keeps a builder balanced.
   */
  lemma StepKeepsBalanced(st: BuilderState, st': BuilderState, doi: string)
    requires Balanced(st) && OrderedState(st')
    requires st'.train == st.train && st'.total == st.total + 1
    requires st'.full.documentCount == st.full.documentCount + 1
    requires st'.full.doisToCategories.vals.Keys == st.full.doisToCategories.vals.Keys + {doi}
    requires ToTraining(st.train, st'.total) ==>
      && st.training.Some? && st'.training.Some? && st'.partial == st.partial
      && st'.training.value.documentCount == st.training.value.documentCount + 1
      && st'.training.value.doisToCategories.vals.Keys == st.training.value.doisToCategories.vals.Keys + {doi}
    requires !ToTraining(st.train, st'.total) ==>
      && st'.training == st.training
      && st'.partial.documentCount == st.partial.documentCount + 1
      && st'.partial.doisToCategories.vals.Keys == st.partial.doisToCategories.vals.Keys + {doi}
    ensures Balanced(st')
  {
    StepKeepsCounts(st, st');
    StepKeepsKeys(st, st', doi);
  }

  /** `add` keeps the builder balanced. */
  lemma AddKeepsBalanced(st: BuilderState, doc: Doc)
    requires SubjectIsList(doc) && Balanced(st)
    ensures AddStep(st, doc).ok ==> Balanced(AddStep(st, doc).st)
  {
    if AddStep(st, doc).ok {
      var doi := doc["id"].s;
      AddRoutesFull(st, doc);
      RetainCounts(st.full, doc, doi);
      var st1 := st.(total := st.total + 1, full := Retain(st.full, doc, doi).rec);
      if ToTraining(st.train, st.total + 1) {
        RoutesTraining(st1, doc, doi);
        RetainCounts(st.training.value, doc, doi);
      } else {
        RoutesPartial(st1, doc, doi);
        RetainCounts(st.partial, doc, doi);
      }
      StepKeepsBalanced(st, AddStep(st, doc).st, doi);
    }
  }

  /** `build(docs)`: `add` each document in turn; the first that raises ends the build. */
  function AddAll(st: BuilderState, docs: seq<Doc>): (r: Added)
    requires forall i :: 0 <= i < |docs| ==> SubjectIsList(docs[i])
    requires OrderedState(st)
    ensures OrderedState(r.st)
    decreases |docs|
  {
    if |docs| == 0 then Added(st, true)
    else
      var a := AddStep(st, docs[0]);
      if !a.ok then a else AddAll(a.st, docs[1..])
  }

  /** A build adds the first document, then, if that returned normally, the rest. */
  lemma AddAllFirst(st: BuilderState, docs: seq<Doc>, a: Added)
    requires forall i :: 0 <= i < |docs| ==> SubjectIsList(docs[i])
    requires OrderedState(st) && |docs| > 0 && a == AddStep(st, docs[0])
    ensures AddAll(st, docs) == if a.ok then AddAll(a.st, docs[1..]) else a
  {
  }

  /**
   * A build that returns normally keeps the builder balanced and counts
   * every document; so of `n` documents added to a new builder,
   * `TrainingCount(train, n)` train and the rest are partial.
   */
  lemma {:induction false} AddAllKeepsBalanced(st: BuilderState, docs: seq<Doc>)
    requires forall i :: 0 <= i < |docs| ==> SubjectIsList(docs[i])
    requires Balanced(st)
    ensures AddAll(st, docs).ok ==> Balanced(AddAll(st, docs).st) && AddAll(st, docs).st.total == st.total + |docs|
    decreases |docs|
  {
    if |docs| > 0 {
      AddKeepsBalanced(st, docs[0]);
      if AddStep(st, docs[0]).ok {
        AddAllKeepsBalanced(AddStep(st, docs[0]).st, docs[1..]);
      }
    }
  }

  /** Every index of the builder is well formed. */
  ghost predicate WellFormedState(st: BuilderState) {
    && WellFormedIndex(st.full) && WellFormedIndex(st.partial)
    && (st.training.Some? ==> WellFormedIndex(st.training.value))
  }

  /** The document's `id` when it is a string. */
  function StrId(doc: Doc): (r: Option<string>)
    ensures r.Some? <==> "id" in doc && doc["id"].Str?
    ensures r.Some? ==> doc["id"] == Str(r.value)
  {
    if "id" in doc && doc["id"].Str? then Some(doc["id"].s) else None
  }

  /** The documents' string ids are new to the builder and differ from one another. */
  ghost predicate FreshIds(st: BuilderState, docs: seq<Doc>) {
    && (forall i :: 0 <= i < |docs| && StrId(docs[i]).Some? ==> StrId(docs[i]).value !in st.full.doisToCategories.vals)
    && (forall i, j :: 0 <= i < j < |docs| && StrId(docs[i]).Some? ==> StrId(docs[i]) != StrId(docs[j]))
  }

  /**
   * `add` of a document whose DOI the builder has not retained yet keeps
   * every index well formed: the DOI is new to the full index and, since
   * the full index holds the DOIs of the other two, new to the one it is
   * routed to.
   */
  lemma AddKeepsWellFormed(st: BuilderState, doc: Doc)
    requires SubjectIsList(doc) && Balanced(st) && WellFormedState(st)
    requires StrId(doc).Some? ==> StrId(doc).value !in st.full.doisToCategories.vals
    ensures AddStep(st, doc).ok ==> WellFormedState(AddStep(st, doc).st)
  {
    if AddStep(st, doc).ok {
      var doi := doc["id"].s;
      AddRoutesFull(st, doc);
      RetainKeepsWellFormed(st.full, doc, doi);
      var st1 := st.(total := st.total + 1, full := Retain(st.full, doc, doi).rec);
      if ToTraining(st.train, st.total + 1) {
        RoutesTraining(st1, doc, doi);
        RetainKeepsWellFormed(st.training.value, doc, doi);
      } else {
        RoutesPartial(st1, doc, doi);
        RetainKeepsWellFormed(st.partial, doc, doi);
      }
    }
  }

  /** A document `add` accepts adds its DOI to the full index's DOIs. */
  lemma AddFullDois(st: BuilderState, doc: Doc)
    requires SubjectIsList(doc) && OrderedState(st)
    requires AddStep(st, doc).ok
    ensures AddStep(st, doc).st.full.doisToCategories.vals.Keys == st.full.doisToCategories.vals.Keys + {doc["id"].s}
  {
    AddRoutesFull(st, doc);
    RetainCounts(st.full, doc, doc["id"].s);
  }

  /**
   * A build from a balanced, well-formed builder over documents with fresh,
   * distinct DOIs that returns normally leaves every index well formed, so
   * the readers find an article record, with its own file names, for each DOI.
   */
  lemma {:induction false} AddAllKeepsWellFormed(st: BuilderState, docs: seq<Doc>)
    requires forall i :: 0 <= i < |docs| ==> SubjectIsList(docs[i])
    requires Balanced(st) && WellFormedState(st) && FreshIds(st, docs)
    ensures AddAll(st, docs).ok ==> WellFormedState(AddAll(st, docs).st)
    decreases |docs|
  {
    if |docs| > 0 {
      var a := AddStep(st, docs[0]);
      AddKeepsWellFormed(st, docs[0]);
      AddKeepsBalanced(st, docs[0]);
      if a.ok {
        AddFullDois(st, docs[0]);
        var rest := docs[1..];
        forall i | 0 <= i < |rest| && StrId(rest[i]).Some?
          ensures StrId(rest[i]).value !in a.st.full.doisToCategories.vals
        {
          assert rest[i] == docs[i + 1];
        }
        forall i, j | 0 <= i < j < |rest| && StrId(rest[i]).Some?
          ensures StrId(rest[i]) != StrId(rest[j])
        {
          assert rest[i] == docs[i + 1] && rest[j] == docs[j + 1];
        }
        AddAllKeepsWellFormed(a.st, rest);
      }
    }
  }

  /** The path of an index file under `baseDir`. */
  function InfoPath(baseDir: string, corpusType: string): string {
    baseDir + "/" + corpusType + "_corpus_info.json"
  }

  /**
   * `finalize()`: the index files it writes, by path. The training index
   * is written iff the builder has one, which for a balanced builder is iff
   * `train >= 1`.
   */
  function FinalizeFiles(baseDir: string, st: BuilderState): (files: map<string, IndexRecord>)
    ensures InfoPath(baseDir, "full") in files && files[InfoPath(baseDir, "full")] == st.full
    ensures InfoPath(baseDir, "partial") in files && files[InfoPath(baseDir, "partial")] == st.partial
    ensures InfoPath(baseDir, "training") in files <==> st.training.Some?
    ensures st.training.Some? ==> files[InfoPath(baseDir, "training")] == st.training.value
  {
    var base := map[InfoPath(baseDir, "full") := st.full, InfoPath(baseDir, "partial") := st.partial];
    if st.training.None? then base else base[InfoPath(baseDir, "training") := st.training.value]
  }

  /** `Plos_builder`; the output directory is not created, only named. */
  class Builder {
    const baseDir: string
    var docTotalCount: int
    const full: CorpusInfo
    const partial: CorpusInfo
    const train: int
    const trainer: CorpusInfo?

    /** The builder's fields as a value. */
    function Snapshot(): BuilderState
      reads this, full, partial, trainer
    {
      BuilderState(docTotalCount, train, full.Finalize(), partial.Finalize(),
                   if trainer == null then None else Some(trainer.Finalize()))
    }

    /** The three indexes are separate objects, and the training one exists iff `train >= 1`. */
    ghost predicate Valid()
      reads this, full, partial, trainer
    {
      && full != partial
      && (trainer != null <==> train >= 1)
      && (trainer != null ==> trainer != full && trainer != partial)
      && OrderedState(Snapshot())
    }

    constructor (query: seq<string>, baseDir: string, desc: string, train: int, creationDate: string)
      ensures Valid()
      ensures this.baseDir == baseDir
      ensures Snapshot() == NewBuilder(query, desc, train, creationDate)
    {
      this.baseDir := baseDir;
      this.docTotalCount := 0;
      this.full := new CorpusInfo(query, desc, creationDate);
      this.partial := new CorpusInfo(query, desc, creationDate);
      this.train := train;
      if train < 1 {
        this.trainer := null;
      } else {
        this.trainer := new CorpusInfo(query, desc, creationDate);
      }
    }

    /** `add(doc)`; `ok` is false where the Python method raises. */
    method Add(doc: Doc) returns (ok: bool)
      requires Valid()
      requires SubjectIsList(doc)
      modifies this, full, partial, trainer
      ensures Valid()
      ensures Added(Snapshot(), ok) == AddStep(old(Snapshot()), doc)
    {
      if "id" !in doc {
        return false;
      }
      docTotalCount := docTotalCount + 1;
      if !doc["id"].Str? {
        return false;
      }
      var doi := doc["id"].s;
      ok := full.RetainInfo(doc, doi);
      assert Snapshot() == old(Snapshot()).(total := docTotalCount, full := full.Finalize());
      if ok {
        ok := Route(doc, doi);
      }
      if ok {
        // `_write_doc`: the files themselves are not modelled, only whether writing them raises.
        ok := Writable(doc);
      }
    }

    /** The routing half of `add`. */
    method Route(doc: Doc, doi: string) returns (ok: bool)
      requires Valid()
      requires SubjectIsList(doc)
      modifies partial, trainer
      ensures Valid()
      ensures Added(Snapshot(), ok) == RouteStep(old(Snapshot()), doc, doi)
    {
      if ToTraining(train, docTotalCount) {
        ok := trainer.RetainInfo(doc, doi);
      } else {
        ok := partial.RetainInfo(doc, doi);
      }
    }

    /** `build(docs)`; `ok` is false where the Python method raises. */
    method Build(docs: seq<Doc>) returns (ok: bool)
      requires Valid()
      requires forall i :: 0 <= i < |docs| ==> SubjectIsList(docs[i])
      modifies this, full, partial, trainer
      ensures Valid()
      ensures Added(Snapshot(), ok) == AddAll(old(Snapshot()), docs)
    {
      var i := 0;
      while i < |docs|
        invariant 0 <= i <= |docs|
        invariant Valid()
        invariant AddAll(Snapshot(), docs[i..]) == AddAll(old(Snapshot()), docs)
      {
        assert docs[i..][0] == docs[i] && docs[i..][1..] == docs[i + 1..];
        ghost var before := Snapshot();
        ok := Add(docs[i]);
        AddAllFirst(before, docs[i..], Added(Snapshot(), ok));
        if !ok {
          return;
        }
        i := i + 1;
      }
      ok := true;
    }

    /** `finalize()`: the files written, by path. */
    function Finalize(): (files: map<string, IndexRecord>)
      reads this, full, partial, trainer
      ensures files == FinalizeFiles(baseDir, Snapshot())
    {
      FinalizeFiles(baseDir, Snapshot())
    }
  }
}
