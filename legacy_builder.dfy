/**
 * The two older corpus builders.
 *
 * `src/gitPLOS/nltk/builder.py` adds documents in batches: it scans a batch
 * into batch-local maps (DOI to categories, category to DOIs, DOI to an
 * information tuple), records each DOI's page and XML links directly in
 * the index, and then merges the batch maps into the index: the DOI-keyed
 * maps are overwritten key by key, each category's list is extended.
 *
 * `openAccess/gitPLoS/nltk/corpus/builder.py` builds in one pass: each DOI
 * gets its JSON file name and links, and each subject the list of DOIs
 * carrying it, in processing order.
 *
 * Both call `articleUrl(doi)` and `articleXML(doi)` with the DOI alone, the
 * signature of `src/gitPLOS/search/solr.py`. The builders here are given
 * the link function as a parameter; `LegacyLinkFn` is that of
 * `src/gitPLOS/search/solr.py`. Writing files and printing are not modelled.
 */
module LegacyBuilder {
  import opened Wrappers
  import opened Docs
  import opened CorpusUtil
  import opened PlosBuilder
  import LegacyPager

  /** The document has a string `id`, so `doc['id']` works and can key a dict. */
  predicate Identified(doc: Doc) {
    "id" in doc && doc["id"].Str?
  }

  predicate AllIdentified(docs: seq<Doc>) {
    forall i :: 0 <= i < |docs| ==> Identified(docs[i])
  }

  predicate AllSubjectLists(docs: seq<Doc>) {
    forall i :: 0 <= i < |docs| ==> SubjectIsList(docs[i])
  }

  function Doi(doc: Doc): string
    requires Identified(doc)
  {
    doc["id"].s
  }

  /**
   * The DOIs of `docs` that carry subject `s`, in document order, each
   * once per time `s` is listed among its subjects.
   */
  function DoisUnder(docs: seq<Doc>, s: string): seq<string>
    requires AllIdentified(docs) && AllSubjectLists(docs)
  {
    if |docs| == 0 then []
    else
      var last := docs[|docs| - 1];
      DoisUnder(docs[..|docs| - 1], s) + Copies(Doi(last), Occurrences(Subjects(last), s))
  }

  /** A DOI is listed under `s` iff one of the documents with that DOI carries `s`. */
  lemma {:induction false} DoisUnderMember(docs: seq<Doc>, s: string, d: string)
    requires AllIdentified(docs) && AllSubjectLists(docs)
    ensures d in DoisUnder(docs, s) <==> exists i :: 0 <= i < |docs| && Doi(docs[i]) == d && s in Subjects(docs[i])
  {
    if |docs| > 0 {
      var front := docs[..|docs| - 1];
      var last := docs[|docs| - 1];
      DoisUnderMember(front, s, d);
      OccurrencesPositive(Subjects(last), s);
      var c := Copies(Doi(last), Occurrences(Subjects(last), s));
      if d in c {
        assert Doi(docs[|docs| - 1]) == d && s in Subjects(docs[|docs| - 1]);
      }
      if Doi(last) == d && s in Subjects(last) {
        assert c[0] == d;
      }
      if exists i :: 0 <= i < |docs| && Doi(docs[i]) == d && s in Subjects(docs[i]) {
        var i :| 0 <= i < |docs| && Doi(docs[i]) == d && s in Subjects(docs[i]);
        if i < |docs| - 1 {
          assert front[i] == docs[i];
        }
      }
    }
  }

  /** The DOIs of `docs`, as a set. */
  function DoiSet(docs: seq<Doc>): set<string>
    requires AllIdentified(docs)
  {
    set i | 0 <= i < |docs| :: Doi(docs[i])
  }

  /** No two documents share a DOI. */
  predicate DistinctDois(docs: seq<Doc>)
    requires AllIdentified(docs)
  {
    forall i, j :: 0 <= i < j < |docs| ==> Doi(docs[i]) != Doi(docs[j])
  }

  /** A DOI's page and XML links. */
  datatype PageLinks = PageLinks(url: string, xml: string)

  /** `(articleUrl(doi), articleXML(doi))`, or `None` where building them raises. */
  type LinkFn = string -> Option<PageLinks>

  /** Both links of `src/gitPLOS/search/solr.py`; they fail on the same DOIs. */
  function LegacyLinks(quote: string -> string, doi: string): (r: Option<PageLinks>)
    ensures r.Some? <==> LegacyPager.LegacyArticleUrl(doi, quote).Some?
    ensures r.Some? <==> LegacyPager.LegacyArticleXml(doi, quote).Some?
    ensures r.Some? ==> r.value == PageLinks(LegacyPager.LegacyArticleUrl(doi, quote).value,
                                             LegacyPager.LegacyArticleXml(doi, quote).value)
  {
    match LegacyPager.LegacyArticleUrl(doi, quote)
    case None => None
    case Some(url) => Some(PageLinks(url, LegacyPager.LegacyArticleXml(doi, quote).value))
  }

  function LegacyLinkFn(quote: string -> string): LinkFn {
    doi => LegacyLinks(quote, doi)
  }

  // ---------------------------------------------------------------------
  // src/gitPLOS/nltk/builder.py

  /** `(journal, pub_date, type, title, author)`. */
  datatype InfoTuple = InfoTuple(journal: Value, pubDate: Value, articleType: Value, title: Value, author: Value)

  function FieldOr(doc: Doc, k: string, dflt: Value): Value {
    if k in doc then doc[k] else dflt
  }

  /** The information tuple of a document: `''` for a missing string field, `[]` for missing authors. */
  function InfoTupleOf(doc: Doc): (t: InfoTuple)
    ensures t.journal == FieldOr(doc, "journal", Str(""))
    ensures t.pubDate == FieldOr(doc, "publication_date", Str(""))
    ensures t.articleType == FieldOr(doc, "article_type", Str(""))
    ensures t.title == FieldOr(doc, "title", Str(""))
    ensures t.author == FieldOr(doc, "author", Strs([]))
  {
    InfoTuple(FieldOr(doc, "journal", Str("")), FieldOr(doc, "publication_date", Str("")),
              FieldOr(doc, "article_type", Str("")), FieldOr(doc, "title", Str("")), FieldOr(doc, "author", Strs([])))
  }

  /** The maps one `add` call builds before merging them. */
  datatype Batch = Batch(d2c: map<string, seq<string>>, c2d: map<string, seq<string>>, d2info: map<string, InfoTuple>)

  /** The page and XML links, updated in the index itself as documents are scanned. */
  datatype Links = Links(article: map<string, string>, xml: map<string, string>)

  datatype Scanned = Scanned(batch: Batch, links: Links, ok: bool)

  /**
   * One document of the scan: its subjects (or `[]`) under its DOI, its DOI
   * under each subject, its two links and its information tuple. Not `ok`
   * where the scan raises: no string `id`, or a DOI no link can be built for.
   */
  function ScanDoc(b: Batch, links: Links, doc: Doc, linkOf: LinkFn): (r: Scanned)
    requires SubjectIsList(doc)
    ensures r.ok <==> Identified(doc) && linkOf(Doi(doc)).Some?
    ensures !r.ok ==> r.links == links
  {
    if !Identified(doc) then Scanned(b, links, false)
    else
      var doi := Doi(doc);
      var subjs := Subjects(doc);
      var b1 := b.(d2c := b.d2c[doi := subjs], c2d := AppendAll(b.c2d, subjs, doi));
      match linkOf(doi)
      case None => Scanned(b1, links, false)
      case Some(pl) =>
        Scanned(b1.(d2info := b1.d2info[doi := InfoTupleOf(doc)]),
                Links(links.article[doi := pl.url], links.xml[doi := pl.xml]), true)
  }

  /** The scan loop over a batch, from empty batch maps; it ends at the first document that raises. */
  function Scan(links: Links, docs: seq<Doc>, linkOf: LinkFn): (r: Scanned)
    requires AllSubjectLists(docs)
    ensures r.ok ==> AllIdentified(docs)
  {
    if |docs| == 0 then Scanned(Batch(map[], map[], map[]), links, true)
    else
      var front := docs[..|docs| - 1];
      var sc := Scan(links, front, linkOf);
      if !sc.ok then sc
      else
        assert docs == front + [docs[|docs| - 1]];
        ScanDoc(sc.batch, sc.links, docs[|docs| - 1], linkOf)
  }

  /** The batch's category map: each category lists the DOIs carrying it, in document order. */
  lemma {:induction false} ScanCategories(links: Links, docs: seq<Doc>, linkOf: LinkFn, s: string)
    requires AllSubjectLists(docs) && Scan(links, docs, linkOf).ok
    ensures AllIdentified(docs)
    ensures Get(Scan(links, docs, linkOf).batch.c2d, s) == DoisUnder(docs, s)
  {
    if |docs| > 0 {
      var front := docs[..|docs| - 1];
      var last := docs[|docs| - 1];
      assert AllSubjectLists(front);
      ScanCategories(links, front, linkOf, s);
      AppendAllAt(Scan(links, front, linkOf).batch.c2d, Subjects(last), Doi(last), s);
    }
  }

  /** A scan that fails on a prefix of the batch fails on the whole batch, with the same result. */
  lemma {:induction false} ScanFailedPrefix(links: Links, docs: seq<Doc>, n: nat, linkOf: LinkFn)
    requires AllSubjectLists(docs) && n <= |docs|
    requires !Scan(links, docs[..n], linkOf).ok
    ensures Scan(links, docs, linkOf) == Scan(links, docs[..n], linkOf)
    decreases |docs|
  {
    if n == |docs| {
      assert docs[..n] == docs;
    } else {
      var front := docs[..|docs| - 1];
      assert AllSubjectLists(front);
      assert front[..n] == docs[..n];
      ScanFailedPrefix(links, front, n, linkOf);
    }
  }

  /** Scanning one more document of a batch whose prefix scanned normally. */
  lemma ScanSnoc(links: Links, docs: seq<Doc>, i: nat, linkOf: LinkFn)
    requires AllSubjectLists(docs) && i < |docs|
    requires Scan(links, docs[..i], linkOf).ok
    ensures var sc := Scan(links, docs[..i], linkOf);
      Scan(links, docs[..i + 1], linkOf) == ScanDoc(sc.batch, sc.links, docs[i], linkOf)
  {
    assert docs[..i + 1][..i] == docs[..i];
    assert docs[..i + 1][i] == docs[i];
  }

  /** The DOIs of a batch and of its prefix without the last document. */
  lemma DoiSetSnoc(docs: seq<Doc>)
    requires AllIdentified(docs) && |docs| > 0
    ensures AllIdentified(docs[..|docs| - 1])
    ensures DoiSet(docs) == DoiSet(docs[..|docs| - 1]) + {Doi(docs[|docs| - 1])}
  {
    var front := docs[..|docs| - 1];
    assert AllIdentified(front) by {
      forall i | 0 <= i < |front| ensures Identified(front[i]) {
        assert front[i] == docs[i];
      }
    }
    forall d | d in DoiSet(docs) ensures d in DoiSet(front) + {Doi(docs[|docs| - 1])} {
      var i :| 0 <= i < |docs| && Doi(docs[i]) == d;
      if i < |docs| - 1 {
        assert front[i] == docs[i];
      }
    }
    forall d | d in DoiSet(front) ensures d in DoiSet(docs) {
      var i :| 0 <= i < |front| && Doi(front[i]) == d;
      assert docs[i] == front[i];
    }
  }

  /** The batch's DOI maps have exactly the batch's DOIs as keys. */
  lemma {:induction false} ScanDoiKeys(links: Links, docs: seq<Doc>, linkOf: LinkFn)
    requires AllSubjectLists(docs) && Scan(links, docs, linkOf).ok
    ensures AllIdentified(docs)
    ensures var b := Scan(links, docs, linkOf).batch;
      b.d2c.Keys == DoiSet(docs) && b.d2info.Keys == DoiSet(docs)
  {
    if |docs| > 0 {
      var front := docs[..|docs| - 1];
      assert AllSubjectLists(front);
      ScanDoiKeys(links, front, linkOf);
      DoiSetSnoc(docs);
    }
  }

  /** With distinct DOIs, each DOI of the batch holds its own document's subjects and tuple. */
  lemma {:induction false} ScanDoiEntries(links: Links, docs: seq<Doc>, linkOf: LinkFn)
    requires AllSubjectLists(docs) && Scan(links, docs, linkOf).ok
    requires AllIdentified(docs) && DistinctDois(docs)
    ensures var b := Scan(links, docs, linkOf).batch;
      forall i :: 0 <= i < |docs| ==>
        Doi(docs[i]) in b.d2c && b.d2c[Doi(docs[i])] == Subjects(docs[i]) &&
        Doi(docs[i]) in b.d2info && b.d2info[Doi(docs[i])] == InfoTupleOf(docs[i])
  {
    if |docs| > 0 {
      var front := docs[..|docs| - 1];
      var last := docs[|docs| - 1];
      assert AllSubjectLists(front);
      DoiSetSnoc(docs);
      assert DistinctDois(front) by {
        forall i, j | 0 <= i < j < |front| ensures Doi(front[i]) != Doi(front[j]) {
          assert front[i] == docs[i] && front[j] == docs[j];
        }
      }
      ScanDoiEntries(links, front, linkOf);
      var sb := Scan(links, front, linkOf).batch;
      var b := Scan(links, docs, linkOf).batch;
      assert b.d2c == sb.d2c[Doi(last) := Subjects(last)];
      assert b.d2info == sb.d2info[Doi(last) := InfoTupleOf(last)];
      forall i | 0 <= i < |docs|
        ensures Doi(docs[i]) in b.d2c && b.d2c[Doi(docs[i])] == Subjects(docs[i])
        ensures Doi(docs[i]) in b.d2info && b.d2info[Doi(docs[i])] == InfoTupleOf(docs[i])
      {
        if i < |docs| - 1 {
          assert front[i] == docs[i];
          assert Doi(docs[i]) != Doi(last);
        }
      }
    }
  }

  /** The index this builder keeps. */
  datatype LegacyIndex = LegacyIndex(creationDate: string, query: string, links: Links,
                                     c2d: map<string, seq<string>>, d2c: map<string, seq<string>>,
                                     d2info: map<string, InfoTuple>)

  /** Extending each category's list by the batch's list under that category; a new category starts empty. */
  function MergeC2d(c2d: map<string, seq<string>>, add: map<string, seq<string>>): (r: map<string, seq<string>>)
    ensures r.Keys == c2d.Keys + add.Keys
    ensures forall k :: Get(r, k) == Get(c2d, k) + Get(add, k)
  {
    map k | k in c2d.Keys + add.Keys :: Get(c2d, k) + Get(add, k)
  }

  datatype BatchAdded = BatchAdded(index: LegacyIndex, ok: bool)

  /**
   * The text files of a batch can be written: `zip` pairs the first `n`
   * documents, one per DOI of the batch, with the file names, and each
   * needs a string body and a first abstract line.
   */
  predicate BatchWritable(docs: seq<Doc>, n: int) {
    forall i :: 0 <= i < |docs| && i < n ==> Writable(docs[i])
  }

  /**
   * `add(docs)`: scan the batch, write its text files, then merge. Where the
   * scan or a write raises, the links recorded so far stay and nothing is
   * merged.
   */
  function AddBatch(ix: LegacyIndex, docs: seq<Doc>, linkOf: LinkFn): (r: BatchAdded)
    requires AllSubjectLists(docs)
  {
    var sc := Scan(ix.links, docs, linkOf);
    if !sc.ok || !BatchWritable(docs, |sc.batch.d2c|) then BatchAdded(ix.(links := sc.links), false)
    else
      BatchAdded(ix.(links := sc.links, d2c := ix.d2c + sc.batch.d2c,
                     c2d := MergeC2d(ix.c2d, sc.batch.c2d), d2info := ix.d2info + sc.batch.d2info), true)
  }

  /** Distinct DOIs are as many as the documents. */
  lemma {:induction false} DistinctDoiCount(docs: seq<Doc>)
    requires AllIdentified(docs) && DistinctDois(docs)
    ensures |DoiSet(docs)| == |docs|
  {
    if |docs| > 0 {
      var front := docs[..|docs| - 1];
      DoiSetSnoc(docs);
      assert DistinctDois(front) by {
        forall i, j | 0 <= i < j < |front| ensures Doi(front[i]) != Doi(front[j]) {
          assert front[i] == docs[i] && front[j] == docs[j];
        }
      }
      DistinctDoiCount(front);
    }
  }

  /**
   * `add` returns normally exactly when the scan does and the batch's text
   * files can be written; with distinct DOIs every document's can.
   */
  lemma AddBatchSucceeds(ix: LegacyIndex, docs: seq<Doc>, linkOf: LinkFn)
    requires AllSubjectLists(docs)
    ensures AddBatch(ix, docs, linkOf).ok <==>
      Scan(ix.links, docs, linkOf).ok && BatchWritable(docs, |DoiSet(docs)|)
    ensures AddBatch(ix, docs, linkOf).ok && DistinctDois(docs) ==> forall i :: 0 <= i < |docs| ==> Writable(docs[i])
  {
    if Scan(ix.links, docs, linkOf).ok {
      ScanDoiKeys(ix.links, docs, linkOf);
      assert |Scan(ix.links, docs, linkOf).batch.d2c| == |DoiSet(docs)|;
      if DistinctDois(docs) {
        DistinctDoiCount(docs);
      }
    }
  }

  /**
   * After an `add` that returns normally every category's list is its old
   * list extended by the batch's DOIs carrying it, in document order; a
   * failed `add` leaves the category and information maps as they were.
   */
  lemma AddBatchExtendsCategories(ix: LegacyIndex, docs: seq<Doc>, linkOf: LinkFn, s: string)
    requires AllSubjectLists(docs)
    ensures var r := AddBatch(ix, docs, linkOf);
      !r.ok ==> r.index.c2d == ix.c2d && r.index.d2c == ix.d2c && r.index.d2info == ix.d2info
    ensures var r := AddBatch(ix, docs, linkOf);
      r.ok ==> AllIdentified(docs) && Get(r.index.c2d, s) == Get(ix.c2d, s) + DoisUnder(docs, s)
  {
    if Scan(ix.links, docs, linkOf).ok {
      ScanCategories(ix.links, docs, linkOf, s);
    }
  }

  /**
   * After an `add` that returns normally with distinct DOIs, each batch DOI
   * holds its document's subjects and tuple, and every other DOI keeps its
   * old entries.
   */
  lemma AddBatchOverwritesDois(ix: LegacyIndex, docs: seq<Doc>, linkOf: LinkFn)
    requires AllSubjectLists(docs)
    requires AddBatch(ix, docs, linkOf).ok
    ensures AllIdentified(docs)
    ensures var r := AddBatch(ix, docs, linkOf).index;
      && r.d2c.Keys == ix.d2c.Keys + DoiSet(docs)
      && r.d2info.Keys == ix.d2info.Keys + DoiSet(docs)
      && (forall d :: d in ix.d2c && d !in DoiSet(docs) ==> r.d2c[d] == ix.d2c[d])
      && (forall d :: d in ix.d2info && d !in DoiSet(docs) ==> r.d2info[d] == ix.d2info[d])
    ensures var r := AddBatch(ix, docs, linkOf).index;
      DistinctDois(docs) ==> forall i :: 0 <= i < |docs| ==>
        r.d2c[Doi(docs[i])] == Subjects(docs[i]) && r.d2info[Doi(docs[i])] == InfoTupleOf(docs[i])
  {
    ScanDoiKeys(ix.links, docs, linkOf);
    if DistinctDois(docs) {
      ScanDoiEntries(ix.links, docs, linkOf);
    }
  }

  /**
   * A batch of fresh, distinct DOIs keeps the two category maps inverse:
   * a DOI is listed under a category exactly when the category is one of
   * the DOI's.
   */
  lemma AddBatchKeepsInverse(ix: LegacyIndex, docs: seq<Doc>, linkOf: LinkFn)
    requires AllSubjectLists(docs)
    requires Inverse(ix.c2d, ix.d2c)
    requires AddBatch(ix, docs, linkOf).ok
    requires AllIdentified(docs) && DistinctDois(docs)
    requires forall i :: 0 <= i < |docs| ==> Doi(docs[i]) !in ix.d2c
    ensures var r := AddBatch(ix, docs, linkOf).index; Inverse(r.c2d, r.d2c)
  {
    var r := AddBatch(ix, docs, linkOf).index;
    AddBatchOverwritesDois(ix, docs, linkOf);
    forall s, d ensures d in Get(r.c2d, s) <==> d in r.d2c && s in r.d2c[d] {
      AddBatchExtendsCategories(ix, docs, linkOf, s);
      InverseAfterBatch(ix.c2d, ix.d2c, r.c2d, r.d2c, docs, s, d);
    }
  }

  /**
   * One category and one DOI after merging a batch of fresh, distinct
   * DOIs into maps that were inverse.
   */
  lemma InverseAfterBatch(c0: map<string, seq<string>>, d0: map<string, seq<string>>,
                          c1: map<string, seq<string>>, d1: map<string, seq<string>>,
                          docs: seq<Doc>, s: string, d: string)
    requires AllIdentified(docs) && AllSubjectLists(docs) && DistinctDois(docs)
    requires Inverse(c0, d0)
    requires forall i :: 0 <= i < |docs| ==> Doi(docs[i]) !in d0
    requires Get(c1, s) == Get(c0, s) + DoisUnder(docs, s)
    requires d1.Keys == d0.Keys + DoiSet(docs)
    requires forall e :: e in d0 && e !in DoiSet(docs) ==> d1[e] == d0[e]
    requires forall i :: 0 <= i < |docs| ==> d1[Doi(docs[i])] == Subjects(docs[i])
    ensures d in Get(c1, s) <==> d in d1 && s in d1[d]
  {
    DoisUnderMember(docs, s, d);
    assert d in Get(c0, s) <==> d in d0 && s in d0[d];
    if d in DoiSet(docs) {
      var i :| 0 <= i < |docs| && Doi(docs[i]) == d;
      assert d !in d0;
      assert d1[d] == Subjects(docs[i]);
      forall j | 0 <= j < |docs| && Doi(docs[j]) == d ensures j == i {
        if j < i {
          assert false;
        } else if i < j {
          assert false;
        }
      }
    } else {
      forall j | 0 <= j < |docs| ensures Doi(docs[j]) != d {
        assert Doi(docs[j]) in DoiSet(docs);
      }
    }
  }

  /** The empty index `__init__` makes; the creation time stamp is given, not read from the clock. */
  function EmptyLegacyIndex(creationDate: string, query: string): (r: LegacyIndex)
    ensures r.links.article == map[] && r.links.xml == map[]
    ensures r.c2d == map[] && r.d2c == map[] && r.d2info == map[]
    ensures Inverse(r.c2d, r.d2c)
  {
    LegacyIndex(creationDate, query, Links(map[], map[]), map[], map[], map[])
  }

  /** The index file of a corpus directory, `'%s/corpus_info.json' % root`. */
  function InfoFile(root: string): (path: string)
    ensures |path| == |root| + 17 && path[..|root|] == root
  {
    root + "/corpus_info.json"
  }

  /** `Builder` of `src/gitPLOS/nltk/builder.py`; the output directory is named, not created. */
  class BatchBuilder {
    const root: string
    const creationDate: string
    const query: string
    var articleLink: map<string, string>
    var xmlLink: map<string, string>
    var c2d: map<string, seq<string>>
    var d2c: map<string, seq<string>>
    var d2info: map<string, InfoTuple>

    function Index(): LegacyIndex
      reads this
    {
      LegacyIndex(creationDate, query, Links(articleLink, xmlLink), c2d, d2c, d2info)
    }

    constructor (query: string, root: string, creationDate: string)
      ensures this.root == root
      ensures Index() == EmptyLegacyIndex(creationDate, query)
    {
      this.root := root;
      this.creationDate := creationDate;
      this.query := query;
      articleLink := map[];
      xmlLink := map[];
      c2d := map[];
      d2c := map[];
      d2info := map[];
    }

    /** `build(docs)`: `add(docs)`, then `finalize()`; nothing is written where `add` raises. */
    method Build(docs: seq<Doc>, linkOf: LinkFn) returns (files: map<string, LegacyIndex>)
      requires AllSubjectLists(docs)
      modifies this
      ensures var r := AddBatch(old(Index()), docs, linkOf);
        Index() == r.index && files == if r.ok then map[InfoFile(root) := r.index] else map[]
    {
      var ok := Add(docs, linkOf);
      files := map[];
      if ok {
        files := Finalize();
      }
    }

    /** `finalize()`: the index, dumped to the directory's index file. */
    function Finalize(): (files: map<string, LegacyIndex>)
      reads this
      ensures files.Keys == {InfoFile(root)} && files[InfoFile(root)] == Index()
    {
      map[InfoFile(root) := Index()]
    }

    /** `add(docs)`; `ok` is false where the Python method raises. */
    method Add(docs: seq<Doc>, linkOf: LinkFn) returns (ok: bool)
      requires AllSubjectLists(docs)
      modifies this
      ensures BatchAdded(Index(), ok) == AddBatch(old(Index()), docs, linkOf)
    {
      var batch := Batch(map[], map[], map[]);
      for i := 0 to |docs|
        invariant Scan(old(Index()).links, docs[..i], linkOf) == Scanned(batch, Links(articleLink, xmlLink), true)
        invariant c2d == old(c2d) && d2c == old(d2c) && d2info == old(d2info)
      {
        ScanSnoc(old(Index()).links, docs, i, linkOf);
        batch, ok := ScanOne(batch, docs[i], linkOf);
        if !ok {
          ScanFailedPrefix(old(Index()).links, docs, i + 1, linkOf);
          return;
        }
      }
      assert docs[..|docs|] == docs;
      ok := WriteTexts(docs, |batch.d2c|);
      if !ok {
        return;
      }
      d2c := d2c + batch.d2c;
      MergeCategories(batch.c2d);
      d2info := d2info + batch.d2info;
      ok := true;
    }

    /** The two loops that dump each document's body and first abstract line; only whether one raises is modelled. */
    method WriteTexts(docs: seq<Doc>, n: int) returns (ok: bool)
      ensures ok <==> BatchWritable(docs, n)
    {
      var m := if n < |docs| then n else |docs|;
      if m < 0 {
        m := 0;
      }
      for i := 0 to m
        invariant forall j :: 0 <= j < i ==> Writable(docs[j])
      {
        if !Writable(docs[i]) {
          return false;
        }
      }
      ok := true;
    }

    /** The body of the scan loop for one document; the links go straight into the index. */
    method ScanOne(b: Batch, doc: Doc, linkOf: LinkFn) returns (b': Batch, ok: bool)
      requires SubjectIsList(doc)
      modifies this
      ensures Scanned(b', Links(articleLink, xmlLink), ok) == ScanDoc(b, old(Index()).links, doc, linkOf)
      ensures c2d == old(c2d) && d2c == old(d2c) && d2info == old(d2info)
    {
      b' := b;
      if "id" !in doc || !doc["id"].Str? {
        return b', false;
      }
      var doi := doc["id"].s;
      var subjs := Subjects(doc);
      var d2cmap := b.d2c[doi := subjs];
      var c2dmap := b.c2d;
      for j := 0 to |subjs|
        invariant c2dmap == AppendAll(b.c2d, subjs[..j], doi)
      {
        assert subjs[..j + 1][..j] == subjs[..j];
        c2dmap := AppendUnder(c2dmap, subjs[j], doi);
      }
      assert subjs[..|subjs|] == subjs;
      b' := b.(d2c := d2cmap, c2d := c2dmap);
      var pl := linkOf(doi);
      if pl.None? {
        return b', false;
      }
      articleLink := articleLink[doi := pl.value.url];
      xmlLink := xmlLink[doi := pl.value.xml];
      b' := b'.(d2info := b'.d2info[doi := InfoTupleOf(doc)]);
      ok := true;
    }

    /** Extending each category's list by the batch's. */
    method MergeCategories(add: map<string, seq<string>>)
      modifies this
      ensures c2d == MergeC2d(old(c2d), add)
      ensures articleLink == old(articleLink) && xmlLink == old(xmlLink) && d2c == old(d2c) && d2info == old(d2info)
    {
      c2d := MergeLoop(c2d, add);
    }
  }

  /** The loop of `add` that extends each category's list by the batch's; the categories are taken in any order. */
  method MergeLoop(c2d: map<string, seq<string>>, add: map<string, seq<string>>) returns (merged: map<string, seq<string>>)
    ensures merged == MergeC2d(c2d, add)
  {
    merged := c2d;
    var todo := add.Keys;
    while todo != {}
      invariant MergedExcept(c2d, add, merged, todo)
      decreases |todo|
    {
      var k :| k in todo;
      MergeStep(c2d, add, merged, todo, k);
      merged := merged[k := Get(merged, k) + add[k]];
      todo := todo - {k};
    }
    MergedAll(c2d, add, merged);
  }

  /** The categories of the batch not in `todo` are extended by the batch's lists, the others are as they were. */
  predicate MergedExcept(c0: map<string, seq<string>>, add: map<string, seq<string>>,
                         c: map<string, seq<string>>, todo: set<string>)
  {
    && todo <= add.Keys
    && c.Keys == c0.Keys + (add.Keys - todo)
    && (forall k :: k in add && k !in todo ==> c[k] == Get(c0, k) + add[k])
    && (forall k :: k in c0 && (k !in add || k in todo) ==> c[k] == c0[k])
  }

  /** Extending one more category of the batch. */
  lemma MergeStep(c0: map<string, seq<string>>, add: map<string, seq<string>>,
                  c: map<string, seq<string>>, todo: set<string>, k: string)
    requires k in todo
    requires MergedExcept(c0, add, c, todo)
    ensures k in add && MergedExcept(c0, add, c[k := Get(c, k) + add[k]], todo - {k})
  {
    assert Get(c, k) == Get(c0, k);
  }

  /** Once every category of the batch is extended, the map is the merge. */
  lemma MergedAll(c0: map<string, seq<string>>, add: map<string, seq<string>>, c: map<string, seq<string>>)
    requires MergedExcept(c0, add, c, {})
    ensures c == MergeC2d(c0, add)
  {
    var m := MergeC2d(c0, add);
    forall k | k in m ensures c[k] == m[k] {
      assert Get(m, k) == m[k];
    }
  }

  // ---------------------------------------------------------------------
  // openAccess/gitPLoS/nltk/corpus/builder.py

  /** `(fn, articleUrl(doi), articleXML(doi))`. */
  datatype FileEntry = FileEntry(fn: string, url: string, xml: string)

  /** The corpus information of the one-pass builder. */
  datatype Corpus = Corpus(name: string, creationDate: string, query: string,
                           fileids: map<string, FileEntry>, categories: map<string, seq<string>>)

  datatype CorpusBuilt = CorpusBuilt(corpus: Corpus, ok: bool)

  /**
   * One document of `build`: its file entry under its DOI, then its DOI
   * under each of its subjects. Not `ok` where the loop raises: no string
   * `id`, or a DOI no link can be built for; that document then changes nothing.
   */
  function BuildDoc(c: Corpus, doc: Doc, linkOf: LinkFn): (r: CorpusBuilt)
    requires SubjectIsList(doc)
    ensures !r.ok ==> r.corpus == c
    ensures r.ok <==> Identified(doc) && linkOf(Doi(doc)).Some?
  {
    if !Identified(doc) then CorpusBuilt(c, false)
    else
      var doi := Doi(doc);
      match linkOf(doi)
      case None => CorpusBuilt(c, false)
      case Some(pl) =>
        var entry := FileEntry(JsonName(doi), pl.url, pl.xml);
        var cats := if "subject" in doc then AppendAll(c.categories, Subjects(doc), doi) else c.categories;
        CorpusBuilt(c.(fileids := c.fileids[doi := entry], categories := cats), true)
  }

  /**
   * `BuildDoc` as the loop is written, under the one-argument link
   * functions `LegacyLinkFn` stands for: a document without `subject`
   * reaches `if verbsoe:`, a name that is not defined, so the build raises
   * after the document's file entry was recorded. (With the two-argument
   * `articleUrl`/`articleXML` the file imports, every document raises
   * `TypeError` at the link step first.)
   */
  function BuildDocAsWritten(c: Corpus, doc: Doc, linkOf: LinkFn): (r: CorpusBuilt)
    requires SubjectIsList(doc)
    ensures r.ok ==> r == BuildDoc(c, doc, linkOf)
    ensures r.ok <==> BuildDoc(c, doc, linkOf).ok && "subject" in doc
  {
    var b := BuildDoc(c, doc, linkOf);
    if b.ok && "subject" !in doc then CorpusBuilt(b.corpus, false) else b
  }

  /** Any document without subjects whose links can be built stops the build as written, but not as intended. */
  lemma SubjectlessDocAborts(c: Corpus, doi: string, linkOf: LinkFn)
    requires linkOf(doi).Some?
    ensures var doc: Doc := map["id" := Str(doi)];
      && !BuildDocAsWritten(c, doc, linkOf).ok
      && BuildDoc(c, doc, linkOf).ok
      && BuildDoc(c, doc, linkOf).corpus.categories == c.categories
  {
  }

  /** `build(doc_list)`: each document in turn; the first that raises ends the build, keeping what was done. */
  function BuildAll(c: Corpus, docs: seq<Doc>, linkOf: LinkFn): (r: CorpusBuilt)
    requires AllSubjectLists(docs)
    ensures r.ok ==> AllIdentified(docs)
  {
    if |docs| == 0 then CorpusBuilt(c, true)
    else
      var front := docs[..|docs| - 1];
      var b := BuildAll(c, front, linkOf);
      if !b.ok then b
      else
        assert docs == front + [docs[|docs| - 1]];
        BuildDoc(b.corpus, docs[|docs| - 1], linkOf)
  }

  /** Building one more document after a prefix that built normally. */
  lemma BuildSnoc(c: Corpus, docs: seq<Doc>, i: nat, linkOf: LinkFn)
    requires AllSubjectLists(docs) && i < |docs|
    requires BuildAll(c, docs[..i], linkOf).ok
    ensures BuildAll(c, docs[..i + 1], linkOf) == BuildDoc(BuildAll(c, docs[..i], linkOf).corpus, docs[i], linkOf)
  {
    assert docs[..i + 1][..i] == docs[..i];
    assert docs[..i + 1][i] == docs[i];
  }

  /** A build that fails on a prefix of the documents fails on all of them, with the same result. */
  lemma {:induction false} BuildFailedPrefix(c: Corpus, docs: seq<Doc>, n: nat, linkOf: LinkFn)
    requires AllSubjectLists(docs) && n <= |docs|
    requires !BuildAll(c, docs[..n], linkOf).ok
    ensures BuildAll(c, docs, linkOf) == BuildAll(c, docs[..n], linkOf)
    decreases |docs|
  {
    if n == |docs| {
      assert docs[..n] == docs;
    } else {
      var front := docs[..|docs| - 1];
      assert AllSubjectLists(front);
      assert front[..n] == docs[..n];
      BuildFailedPrefix(c, front, n, linkOf);
    }
  }

  /**
   * A build that returns normally gives every DOI its entry: the DOI's
   * JSON file name and its two links; DOIs not built keep their entries.
   */
  lemma {:induction false} BuildFileids(c: Corpus, docs: seq<Doc>, linkOf: LinkFn)
    requires AllSubjectLists(docs) && BuildAll(c, docs, linkOf).ok
    ensures AllIdentified(docs)
    ensures var f := BuildAll(c, docs, linkOf).corpus.fileids;
      && f.Keys == c.fileids.Keys + DoiSet(docs)
      && (forall d :: d in c.fileids && d !in DoiSet(docs) ==> f[d] == c.fileids[d])
      && forall d :: d in DoiSet(docs) ==>
           linkOf(d).Some? && f[d] == FileEntry(JsonName(d), linkOf(d).value.url, linkOf(d).value.xml)
  {
    if |docs| > 0 {
      var front := docs[..|docs| - 1];
      var last := docs[|docs| - 1];
      assert AllSubjectLists(front);
      BuildFileids(c, front, linkOf);
      DoiSetSnoc(docs);
    }
  }

  /**
   * With the links of `src/gitPLOS/search/solr.py`, every DOI of a build
   * that returns normally is one those links can be built for (a DOI of a
   * known PLOS site), and its entry holds the article page and XML
   * addresses on that site.
   */
  lemma BuildFileidsWithSolrLinks(c: Corpus, docs: seq<Doc>, quote: string -> string)
    requires AllSubjectLists(docs) && BuildAll(c, docs, LegacyLinkFn(quote)).ok
    ensures AllIdentified(docs)
    ensures var f := BuildAll(c, docs, LegacyLinkFn(quote)).corpus.fileids;
      forall d :: d in DoiSet(docs) ==>
      && LegacyPager.LegacyArticleUrl(d, quote).Some?
      && d in f
      && f[d]
           == FileEntry(JsonName(d), LegacyPager.LegacyArticleUrl(d, quote).value,
                        LegacyPager.LegacyArticleXml(d, quote).value)
  {
    BuildFileids(c, docs, LegacyLinkFn(quote));
  }

  /**
   * A build that returns normally extends each subject's list by the DOIs
   * carrying it, in processing order; a document without subjects adds
   * nothing, and a new subject starts with the DOIs that carry it.
   */
  lemma {:induction false} BuildCategories(c: Corpus, docs: seq<Doc>, linkOf: LinkFn, s: string)
    requires AllSubjectLists(docs) && BuildAll(c, docs, linkOf).ok
    ensures AllIdentified(docs)
    ensures Get(BuildAll(c, docs, linkOf).corpus.categories, s) == Get(c.categories, s) + DoisUnder(docs, s)
  {
    if |docs| > 0 {
      var front := docs[..|docs| - 1];
      var last := docs[|docs| - 1];
      assert AllSubjectLists(front);
      BuildCategories(c, front, linkOf, s);
      AppendAllAt(BuildAll(c, front, linkOf).corpus.categories, Subjects(last), Doi(last), s);
      if "subject" !in last {
        assert Occurrences(Subjects(last), s) == 0;
      }
    }
  }

  /** `Builder` of `openAccess/gitPLoS/nltk/corpus/builder.py`; the corpus directory is named, not created. */
  class CorpusBuilder {
    const name: string
    const creationDate: string
    const query: string
    var fileids: map<string, FileEntry>
    var categories: map<string, seq<string>>

    function State(): Corpus
      reads this
    {
      Corpus(name, creationDate, query, fileids, categories)
    }

    constructor (query: string, name: string, creationDate: string)
      ensures State() == Corpus(name, creationDate, query, map[], map[])
    {
      this.name := name;
      this.creationDate := creationDate;
      this.query := query;
      fileids := map[];
      categories := map[];
    }

    /** `build(doc_list)`; `ok` is false where the Python method raises. */
    method Build(docs: seq<Doc>, linkOf: LinkFn) returns (ok: bool, files: map<string, Corpus>)
      requires AllSubjectLists(docs)
      modifies this
      ensures CorpusBuilt(State(), ok) == BuildAll(old(State()), docs, linkOf)
      ensures files == if ok then map[InfoFile(name) := State()] else map[]
    {
      files := map[];
      for i := 0 to |docs|
        invariant BuildAll(old(State()), docs[..i], linkOf) == CorpusBuilt(State(), true)
      {
        BuildSnoc(old(State()), docs, i, linkOf);
        ok := BuildOne(docs[i], linkOf);
        if !ok {
          BuildFailedPrefix(old(State()), docs, i + 1, linkOf);
          return;
        }
      }
      assert docs[..|docs|] == docs;
      ok := true;
      files := map[InfoFile(name) := State()];
    }

    /** The body of the build loop for one document. */
    method BuildOne(doc: Doc, linkOf: LinkFn) returns (ok: bool)
      requires SubjectIsList(doc)
      modifies this
      ensures CorpusBuilt(State(), ok) == BuildDoc(old(State()), doc, linkOf)
    {
      if "id" !in doc || !doc["id"].Str? {
        return false;
      }
      var doi := doc["id"].s;
      var fn := JsonName(doi);
      var pl := linkOf(doi);
      if pl.None? {
        return false;
      }
      fileids := fileids[doi := FileEntry(fn, pl.value.url, pl.value.xml)];
      if "subject" in doc {
        var subjs := doc["subject"].items;
        var cats := categories;
        for j := 0 to |subjs|
          invariant cats == AppendAll(categories, subjs[..j], doi)
        {
          assert subjs[..j + 1][..j] == subjs[..j];
          ghost var before := cats;
          if subjs[j] in cats {
            cats := cats[subjs[j] := cats[subjs[j]] + [doi]];
          } else {
            assert Get(cats, subjs[j]) + [doi] == [doi];
            cats := cats[subjs[j] := [doi]];
          }
          assert cats == AppendUnder(before, subjs[j], doi);
        }
        assert subjs[..|subjs|] == subjs;
        categories := cats;
      }
      ok := true;
    }
  }
}
