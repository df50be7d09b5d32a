/**
 * The corpus reader of `openAccess/gitPLoS/nltk/corpus/reader.py`. It opens
 * `corpus_info.json` under a root directory (the index the batch builder of
 * `src/gitPLOS/nltk/builder.py` writes), derives the text file name of each
 * DOI for one document part, maps each file name to its DOI's categories,
 * and answers lookups that pair DOIs with links, file names, authors,
 * dates, types and titles.
 *
 * The directory of index files is a map from path to the index it holds.
 * The order of the loaded `d2c` dict's keys is given with it: Python 2
 * leaves that order unspecified, and it shows in every answer for "all DOIs".
 */
module LegacyReader {
  import opened Wrappers
  import opened Docs
  import opened PyDict
  import opened CorpusUtil
  import opened PlosBuilder
  import opened LegacyBuilder
  import PlosReader

  /** An opened reader: its configuration, the loaded index with its `d2c` key order, and what it hands to the corpus reader it extends. */
  datatype Reader = Reader(root: string, docPart: string, info: LegacyIndex, order: seq<string>,
                           fileids: seq<string>, catMap: map<string, seq<string>>)

  /** `info['d2c']` as the ordered dict it was loaded as. */
  function D2c(rd: Reader): Dict<seq<string>> {
    Dict(rd.order, rd.info.d2c)
  }

  /** The key order lists each key of `d2c` once. */
  ghost predicate Loaded(rd: Reader) {
    D2c(rd).Valid()
  }

  /**
   * `PlosReader(root, doc_part=..., fileids=...)`: `doc_part` defaults to
   * `'body'`; the file ids are the file names of the `d2c` keys, in key
   * order; `cat_map` is built over `d2c` in the same order. `None` where the
   * constructor raises: the index file cannot be opened, or `fileids` or
   * `doc_part` was given. Neither is removed from the keyword arguments, so
   * `fileids` reaches the superclass a second time and `doc_part` reaches
   * the plain-text reader, which takes no such argument.
   */
  function Open(files: map<string, LegacyIndex>, root: string, order: seq<string>,
                docPart: Option<string>, fileids: Option<seq<string>>): (r: Option<Reader>)
    ensures r.Some? <==> InfoFile(root) in files && docPart.None? && fileids.None?
    ensures r.Some? ==>
      && r.value.info == files[InfoFile(root)] && r.value.order == order
      && r.value.docPart == "body"
      && r.value.fileids == TxtNames(order, "body")
      && r.value.catMap == PlosReader.CatMap(order, r.value.info.d2c, "body")
  {
    if InfoFile(root) !in files then None
    else
      var info := files[InfoFile(root)];
      var part := if docPart.Some? then docPart.value else "body";
      var fids := if fileids.Some? then fileids.value else TxtNames(order, part);
      if fileids.Some? || docPart.Some? then None
      else Some(Reader(root, part, info, order, fids, PlosReader.CatMap(order, info.d2c, part)))
  }

  /** The DOIs an accessor answers for: `_listafy(doi_lst, d2c)`. */
  function Requested(rd: Reader, lst: Arg): (r: seq<string>)
    requires Loaded(rd)
    ensures lst.NoArg? ==> (forall d :: d in r <==> d in rd.info.d2c) && |r| == |rd.info.d2c|
    ensures lst.One? ==> r == [lst.s]
    ensures lst.Many? ==> r == lst.items
  {
    Listafy(lst, D2c(rd))
  }

  /** Each DOI with its link; `None` where a DOI has none (a `KeyError`). */
  function LinkPairs(ds: seq<string>, links: map<string, string>): (r: Option<seq<(string, string)>>)
    ensures r.Some? <==> forall i :: 0 <= i < |ds| ==> ds[i] in links
    ensures r.Some? ==> |r.value| == |ds| && forall i :: 0 <= i < |ds| ==> r.value[i] == (ds[i], links[ds[i]])
  {
    if forall i :: 0 <= i < |ds| ==> ds[i] in links then
      Some(seq(|ds|, i requires 0 <= i < |ds| && ds[i] in links => (ds[i], links[ds[i]])))
    else None
  }

  /** `articleURL(doi_lst)`: each requested DOI with its article page link. */
  function ArticleUrls(rd: Reader, lst: Arg): (r: Option<seq<(string, string)>>)
    requires Loaded(rd)
    ensures var ds := Requested(rd, lst);
      && (r.Some? <==> forall i :: 0 <= i < |ds| ==> ds[i] in rd.info.links.article)
      && (r.Some? ==> |r.value| == |ds| && forall i :: 0 <= i < |ds| ==> r.value[i] == (ds[i], rd.info.links.article[ds[i]]))
  {
    LinkPairs(Requested(rd, lst), rd.info.links.article)
  }

  /** `articleXML(doi_lst)`: each requested DOI with its XML link. */
  function ArticleXmls(rd: Reader, lst: Arg): (r: Option<seq<(string, string)>>)
    requires Loaded(rd)
    ensures var ds := Requested(rd, lst);
      && (r.Some? <==> forall i :: 0 <= i < |ds| ==> ds[i] in rd.info.links.xml)
      && (r.Some? ==> |r.value| == |ds| && forall i :: 0 <= i < |ds| ==> r.value[i] == (ds[i], rd.info.links.xml[ds[i]]))
  {
    LinkPairs(Requested(rd, lst), rd.info.links.xml)
  }

  /** `doi2fid(doi_lst)`: each requested DOI with its text file name for the reader's document part. */
  function Doi2Fid(rd: Reader, lst: Arg): (r: seq<(string, string)>)
    requires Loaded(rd)
    ensures var ds := Requested(rd, lst);
      |r| == |ds| && forall i :: 0 <= i < |ds| ==> r[i] == (ds[i], TxtName(ds[i], rd.docPart))
  {
    var ds := Requested(rd, lst);
    var fns := TxtNames(ds, rd.docPart);
    seq(|ds|, i requires 0 <= i < |ds| => (ds[i], fns[i]))
  }

  /** `doi2fid()` pairs each DOI with the reader's own file id at the same place. */
  lemma DefaultFileidsAreDoi2Fid(files: map<string, LegacyIndex>, root: string, order: seq<string>)
    requires Open(files, root, order, None, None).Some?
    requires Loaded(Open(files, root, order, None, None).value)
    ensures var rd := Open(files, root, order, None, None).value;
      var p := Doi2Fid(rd, NoArg);
      |p| == |rd.fileids| && forall i :: 0 <= i < |p| ==> p[i] == (rd.order[i], rd.fileids[i])
  {
  }

  /**
   * On an index whose DOIs hold no `-`, every default file id is a key of
   * the category map, holding exactly its DOI's categories.
   */
  lemma DefaultFileidsCategorized(files: map<string, LegacyIndex>, root: string, order: seq<string>)
    requires Open(files, root, order, None, None).Some?
    requires var rd := Open(files, root, order, None, None).value;
      Loaded(rd) && forall i :: 0 <= i < |rd.order| ==> '-' !in rd.order[i]
    ensures var rd := Open(files, root, order, None, None).value;
      forall i :: 0 <= i < |rd.fileids| ==>
        rd.fileids[i] in rd.catMap && rd.catMap[rd.fileids[i]] == rd.info.d2c[rd.order[i]]
  {
    var rd := Open(files, root, order, None, None).value;
    forall i | 0 <= i < |rd.fileids|
      ensures rd.fileids[i] in rd.catMap && rd.catMap[rd.fileids[i]] == rd.info.d2c[rd.order[i]]
    {
      PlosReader.CatMapExact(rd.order, rd.info.d2c, rd.docPart, rd.order[i]);
    }
  }

  /** `[(d, a) for a in authors]`, iterating the author field as Python does. */
  function PairAll(d: string, authors: Value): (r: seq<(string, string)>)
    ensures |r| == |AsTuple(authors)|
    ensures forall j :: 0 <= j < |r| ==> r[j] == (d, AsTuple(authors)[j])
  {
    var a := AsTuple(authors);
    seq(|a|, j requires 0 <= j < |a| => (d, a[j]))
  }

  /** Every DOI of `ds` has an information tuple. */
  predicate AllInfo(ds: seq<string>, info: map<string, InfoTuple>) {
    forall i :: 0 <= i < |ds| ==> ds[i] in info
  }

  /** The `(doi, author)` pairs of `ds`: DOI by DOI, each DOI's authors in order. */
  function AuthorPairs(ds: seq<string>, info: map<string, InfoTuple>): seq<(string, string)>
    requires AllInfo(ds, info)
  {
    if |ds| == 0 then []
    else
      var front := ds[..|ds| - 1];
      var d := ds[|ds| - 1];
      AuthorPairs(front, info) + PairAll(d, info[d].author)
  }

  /** The number of authors over `ds`. */
  function AuthorCount(ds: seq<string>, info: map<string, InfoTuple>): nat
    requires AllInfo(ds, info)
  {
    if |ds| == 0 then 0
    else AuthorCount(ds[..|ds| - 1], info) + |AsTuple(info[ds[|ds| - 1]].author)|
  }

  /**
   * A pair is in the list iff its DOI is requested and its author is one
   * of that DOI's; the list holds one pair per author of each DOI.
   */
  lemma {:induction false} AuthorPairsMember(ds: seq<string>, info: map<string, InfoTuple>, d: string, a: string)
    requires AllInfo(ds, info)
    ensures (d, a) in AuthorPairs(ds, info) <==> d in ds && a in AsTuple(info[d].author)
    ensures |AuthorPairs(ds, info)| == AuthorCount(ds, info)
  {
    if |ds| > 0 {
      var front := ds[..|ds| - 1];
      var last := ds[|ds| - 1];
      assert AllInfo(front, info);
      AuthorPairsMember(front, info, d, a);
      var tail := PairAll(last, info[last].author);
      if (d, a) in tail {
        var j :| 0 <= j < |tail| && tail[j] == (d, a);
        assert d == last;
      }
      if d == last && a in AsTuple(info[d].author) {
        var j :| 0 <= j < |AsTuple(info[d].author)| && AsTuple(info[d].author)[j] == a;
        assert tail[j] == (d, a);
      }
      if d in ds && d != last {
        var i :| 0 <= i < |ds| && ds[i] == d;
        assert front[i] == d;
      }
    }
  }

  /** `authors(doi_lst)`: the loop that extends the list by each requested DOI's `(doi, author)` pairs. */
  method Authors(rd: Reader, lst: Arg) returns (r: Option<seq<(string, string)>>)
    requires Loaded(rd)
    ensures var ds := Requested(rd, lst);
      && (r.Some? <==> AllInfo(ds, rd.info.d2info))
      && (r.Some? ==> r.value == AuthorPairs(ds, rd.info.d2info))
  {
    var dois := Requested(rd, lst);
    var d2info := rd.info.d2info;
    var alist: seq<(string, string)> := [];
    for i := 0 to |dois|
      invariant AllInfo(dois[..i], d2info)
      invariant alist == AuthorPairs(dois[..i], d2info)
    {
      var d := dois[i];
      if d !in d2info {
        return None;
      }
      assert dois[..i + 1][..i] == dois[..i];
      alist := alist + PairAll(d, d2info[d].author);
    }
    assert dois[..|dois|] == dois;
    return Some(alist);
  }

  /** The fields `pub_date`, `article_type` and `title` pick out of an information tuple. */
  datatype TupleField = PubDate | ArticleType | Title

  function Pick(t: InfoTuple, f: TupleField): Value {
    match f
    case PubDate => t.pubDate
    case ArticleType => t.articleType
    case Title => t.title
  }

  /**
   * What `dlist.extend((d, pd))` builds: extending a list by a pair appends
   * its two items, so the list alternates DOI and field value.
   */
  function Interleaved(ds: seq<string>, info: map<string, InfoTuple>, f: TupleField): seq<Value>
    requires AllInfo(ds, info)
  {
    if |ds| == 0 then []
    else
      var d := ds[|ds| - 1];
      Interleaved(ds[..|ds| - 1], info, f) + [Str(d), Pick(info[d], f)]
  }

  /** The list is flat, twice as long as the DOI list: each DOI at an even place, its field right after it. */
  lemma {:induction false} InterleavedShape(ds: seq<string>, info: map<string, InfoTuple>, f: TupleField)
    requires AllInfo(ds, info)
    ensures var r := Interleaved(ds, info, f);
      |r| == 2 * |ds| && forall i :: 0 <= i < |ds| ==> r[2 * i] == Str(ds[i]) && r[2 * i + 1] == Pick(info[ds[i]], f)
  {
    if |ds| > 0 {
      var front := ds[..|ds| - 1];
      assert AllInfo(front, info);
      InterleavedShape(front, info, f);
      var r := Interleaved(ds, info, f);
      var rf := Interleaved(front, info, f);
      forall i | 0 <= i < |ds| ensures r[2 * i] == Str(ds[i]) && r[2 * i + 1] == Pick(info[ds[i]], f) {
        if i < |ds| - 1 {
          assert r[2 * i] == rf[2 * i] && r[2 * i + 1] == rf[2 * i + 1];
          assert front[i] == ds[i];
        }
      }
    }
  }

  /** The loop shared by `pub_date`, `article_type` and `title`. */
  method InterleaveField(rd: Reader, lst: Arg, f: TupleField) returns (r: Option<seq<Value>>)
    requires Loaded(rd)
    ensures var ds := Requested(rd, lst);
      && (r.Some? <==> AllInfo(ds, rd.info.d2info))
      && (r.Some? ==> r.value == Interleaved(ds, rd.info.d2info, f))
  {
    var dois := Requested(rd, lst);
    var d2info := rd.info.d2info;
    var dlist: seq<Value> := [];
    for i := 0 to |dois|
      invariant AllInfo(dois[..i], d2info)
      invariant dlist == Interleaved(dois[..i], d2info, f)
    {
      var d := dois[i];
      if d !in d2info {
        return None;
      }
      assert dois[..i + 1][..i] == dois[..i];
      dlist := dlist + [Str(d), Pick(d2info[d], f)];
    }
    assert dois[..|dois|] == dois;
    return Some(dlist);
  }

  /** `pub_date(doi_lst)`. */
  method PubDates(rd: Reader, lst: Arg) returns (r: Option<seq<Value>>)
    requires Loaded(rd)
    ensures var ds := Requested(rd, lst);
      && (r.Some? <==> AllInfo(ds, rd.info.d2info))
      && (r.Some? ==> r.value == Interleaved(ds, rd.info.d2info, PubDate))
  {
    r := InterleaveField(rd, lst, PubDate);
  }

  /** `article_type(doi_lst)`. */
  method ArticleTypes(rd: Reader, lst: Arg) returns (r: Option<seq<Value>>)
    requires Loaded(rd)
    ensures var ds := Requested(rd, lst);
      && (r.Some? <==> AllInfo(ds, rd.info.d2info))
      && (r.Some? ==> r.value == Interleaved(ds, rd.info.d2info, ArticleType))
  {
    r := InterleaveField(rd, lst, ArticleType);
  }

  /** `title(doi_lst)`. */
  method Titles(rd: Reader, lst: Arg) returns (r: Option<seq<Value>>)
    requires Loaded(rd)
    ensures var ds := Requested(rd, lst);
      && (r.Some? <==> AllInfo(ds, rd.info.d2info))
      && (r.Some? ==> r.value == Interleaved(ds, rd.info.d2info, Title))
  {
    r := InterleaveField(rd, lst, Title);
  }

  /** The DOIs of a batch, in document order. */
  function DoiSeq(docs: seq<Doc>): (r: seq<string>)
    requires AllIdentified(docs)
    ensures |r| == |docs| && forall i :: 0 <= i < |docs| ==> r[i] == Doi(docs[i])
  {
    seq(|docs|, i requires 0 <= i < |docs| => Doi(docs[i]))
  }

  /**
   * Reading back what the batch builder wrote: after `build(docs)` returns
   * normally on documents with distinct DOIs, a reader over its output
   * directory opens (given neither file ids nor a document part), every DOI of the batch has an information tuple, and
   * the dates read back for the batch's DOIs are the documents' own (`''`
   * where a document has none); each DOI's author pairs list its own
   * document's authors.
   */
  lemma ReadBackBatch(ix: LegacyIndex, docs: seq<Doc>, linkOf: LinkFn, root: string, order: seq<string>)
    requires AllSubjectLists(docs) && AddBatch(ix, docs, linkOf).ok
    requires AllIdentified(docs) && DistinctDois(docs)
    ensures var files := map[InfoFile(root) := AddBatch(ix, docs, linkOf).index];
      var rd := Open(files, root, order, None, None);
      && rd.Some?
      && AllInfo(DoiSeq(docs), rd.value.info.d2info)
      && var p := Interleaved(DoiSeq(docs), rd.value.info.d2info, PubDate);
         |p| == 2 * |docs| &&
         forall i :: 0 <= i < |docs| ==>
           p[2 * i] == Str(Doi(docs[i])) && p[2 * i + 1] == FieldOr(docs[i], "publication_date", Str(""))
    ensures var info := AddBatch(ix, docs, linkOf).index.d2info;
      AllInfo(DoiSeq(docs), info) &&
      forall i, a :: 0 <= i < |docs| ==>
        ((Doi(docs[i]), a) in AuthorPairs(DoiSeq(docs), info) <==> a in AsTuple(FieldOr(docs[i], "author", Strs([]))))
  {
    var info := AddBatch(ix, docs, linkOf).index.d2info;
    var ds := DoiSeq(docs);
    AddBatchOverwritesDois(ix, docs, linkOf);
    assert AllInfo(ds, info);
    InterleavedShape(ds, info, PubDate);
    forall i, a | 0 <= i < |docs|
      ensures (Doi(docs[i]), a) in AuthorPairs(ds, info) <==> a in AsTuple(FieldOr(docs[i], "author", Strs([])))
    {
      AuthorPairsMember(ds, info, Doi(docs[i]), a);
    }
  }
}
