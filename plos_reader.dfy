/**
 * The corpus reader of `src/oa_nlp/nltk/plos_reader.py` (and its identical
 * copy `src/oa_nlp/nltk/reader.py`). A reader opens the index file of one
 * corpus type under a root directory, derives the text file names of one
 * document part, maps each file name to its DOI's categories, and answers
 * per-DOI lookups into the index.
 *
 * The directory of index files is a map from path to the index record that
 * file holds; a path that is not in it is a file that cannot be opened.
 */
module PlosReader {
  import opened Wrappers
  import opened Docs
  import opened PyDict
  import opened CorpusUtil
  import opened PlosBuilder

  /** The keyword arguments the reader itself consumes; each may be absent. */
  datatype ReaderOptions = ReaderOptions(corpusType: Option<string>, docPart: Option<string>, fileids: Option<seq<string>>)

  /** An opened reader: its configuration, the loaded index, and what it hands to the corpus reader it extends. */
  datatype Reader = Reader(root: string, corpusType: string, docPart: string, info: IndexRecord,
                           fileids: seq<string>, catMap: map<string, seq<string>>)

  /**
   * `dois()`: the keys of `dois_to_categories`. That is a plain dict, reloaded
   * by `json.load`, so Python 2 lists its keys in an unspecified order; the
   * model lists them in insertion order instead.
   */
  function Dois(rd: Reader): seq<string> {
    rd.info.doisToCategories.keys
  }

  /** On a consistent dict, `dois()` lists each DOI of the index once. */
  lemma DoisAreIndexKeys(rd: Reader)
    requires rd.info.doisToCategories.Valid()
    ensures forall d :: d in Dois(rd) <==> d in rd.info.doisToCategories.vals
    ensures |Dois(rd)| == |rd.info.doisToCategories.vals|
  {
    DistinctCard(rd.info.doisToCategories.keys, rd.info.doisToCategories.vals.Keys);
  }

  /**
   * The `cat_map` comprehension over `dois_to_categories`: each entry, in
   * the dict's order, maps the DOI's file name to its categories; a later
   * entry with the same file name overwrites an earlier one.
   */
  function CatMap(keys: seq<string>, vals: map<string, seq<string>>, part: string): map<string, seq<string>>
  {
    if |keys| == 0 then map[]
    else
      var m := CatMap(keys[..|keys| - 1], vals, part);
      var d := keys[|keys| - 1];
      if d in vals then m[TxtName(d, part) := vals[d]] else m
  }

  /** The keys of `cat_map` are the file names of the DOIs. */
  lemma {:induction false} CatMapKeys(keys: seq<string>, vals: map<string, seq<string>>, part: string)
    ensures forall f :: f in CatMap(keys, vals, part) <==> exists d :: d in keys && d in vals && f == TxtName(d, part)
  {
    if |keys| > 0 {
      var front := keys[..|keys| - 1];
      var last := keys[|keys| - 1];
      var m := CatMap(front, vals, part);
      CatMapKeys(front, vals, part);
      assert keys == front + [last];
      assert CatMap(keys, vals, part) == if last in vals then m[TxtName(last, part) := vals[last]] else m;
      forall f ensures f in CatMap(keys, vals, part) <==> exists d :: d in keys && d in vals && f == TxtName(d, part) {
        if f in CatMap(keys, vals, part) {
          if !(last in vals && f == TxtName(last, part)) {
            assert f in m;
            var d :| d in front && d in vals && f == TxtName(d, part);
            assert d in keys;
          }
        } else {
          forall d | d in keys && d in vals ensures f != TxtName(d, part) {
            if d != last {
              assert d in front;
            }
          }
        }
      }
    }
  }

  /**
   * When no DOI holds a `-`, file names do not collide and `cat_map` sends
   * each DOI's file name to exactly that DOI's categories.
   */
  lemma {:induction false} CatMapExact(keys: seq<string>, vals: map<string, seq<string>>, part: string, d: string)
    requires forall i :: 0 <= i < |keys| ==> '-' !in keys[i]
    requires d in keys && d in vals
    ensures TxtName(d, part) in CatMap(keys, vals, part)
    ensures CatMap(keys, vals, part)[TxtName(d, part)] == vals[d]
  {
    var front := keys[..|keys| - 1];
    var last := keys[|keys| - 1];
    assert keys == front + [last];
    if d != last {
      assert d in front;
      CatMapExact(front, vals, part, d);
      if last in vals && TxtName(last, part) == TxtName(d, part) {
        TxtNameInjective(last, d, part);
      }
    }
  }

  /** The index file a corpus type names, or `None` when the file cannot be opened. */
  function LoadIndex(files: map<string, IndexRecord>, root: string, corpusType: string): (r: Option<IndexRecord>)
    ensures r.Some? <==> InfoPath(root, corpusType) in files
    ensures r.Some? ==> r.value == files[InfoPath(root, corpusType)]
  {
    var fn := InfoPath(root, corpusType);
    if fn in files then Some(files[fn]) else None
  }

  /**
   * `Plos_reader(root, **kwargs)`: the corpus type defaults to `full` and
   * selects the index file, the document part defaults to `body`, the file
   * ids are the DOIs' file names of that part, and the category map keys
   * the DOIs' categories by file name. `None` where the constructor raises:
   * the index file cannot be opened, or `fileids` was given, which stays
   * in the keyword arguments and reaches the superclass a second time.
   */
  function OpenReader(files: map<string, IndexRecord>, root: string, opts: ReaderOptions): (r: Option<Reader>)
    ensures var ctype := if opts.corpusType.Some? then opts.corpusType.value else "full";
      r.Some? <==> InfoPath(root, ctype) in files && opts.fileids.None?
    ensures r.Some? ==>
      && r.value.root == root
      && r.value.corpusType == (if opts.corpusType.Some? then opts.corpusType.value else "full")
      && r.value.info == files[InfoPath(root, r.value.corpusType)]
      && r.value.docPart == (if opts.docPart.Some? then opts.docPart.value else "body")
      && r.value.fileids == TxtNames(Dois(r.value), r.value.docPart)
      && r.value.catMap == CatMap(r.value.info.doisToCategories.keys, r.value.info.doisToCategories.vals, r.value.docPart)
  {
    var ctype := if opts.corpusType.Some? then opts.corpusType.value else "full";
    match LoadIndex(files, root, ctype)
    case None => None
    case Some(info) =>
      var part := if opts.docPart.Some? then opts.docPart.value else "body";
      var d2c := info.doisToCategories;
      var rd := Reader(root, ctype, part, info, [], CatMap(d2c.keys, d2c.vals, part));
      if opts.fileids.Some? then None
      else Some(rd.(fileids := TxtNames(Dois(rd), part)))
  }

  /** The DOIs an accessor answers for: the given list, or every DOI when none is given. */
  function Requested(rd: Reader, lst: Option<seq<string>>): (r: seq<string>)
    ensures lst.Some? ==> r == lst.value
    ensures lst.None? ==> r == Dois(rd)
  {
    if lst.None? then Dois(rd) else lst.value
  }

  /** `article_info(lst)`: each requested DOI with its article record; `None` on a DOI without one. */
  function ArticleInfos(rd: Reader, lst: Option<seq<string>>): (r: Option<seq<(string, ArticleInfo)>>)
    ensures var ds := Requested(rd, lst); var info := rd.info.doiArticleInfo.vals;
      && (r.Some? <==> forall i :: 0 <= i < |ds| ==> ds[i] in info)
      && (r.Some? ==> |r.value| == |ds| && forall i :: 0 <= i < |ds| ==> r.value[i] == (ds[i], info[ds[i]]))
  {
    var ds := Requested(rd, lst);
    var info := rd.info.doiArticleInfo.vals;
    if forall i :: 0 <= i < |ds| ==> ds[i] in info then
      Some(seq(|ds|, i requires 0 <= i < |ds| && ds[i] in info => (ds[i], info[ds[i]])))
    else None
  }

  /** Every requested DOI has a record holding `field`. */
  predicate HasField(ds: seq<string>, info: map<string, ArticleInfo>, field: string) {
    forall i :: 0 <= i < |ds| ==> ds[i] in info && field in info[ds[i]]
  }

  /**
   * The per-field accessors (`article_page_url` with `page_url`,
   * `article_xml_url` with `xml_url`, `doi_body_fid` with `body_fid`,
   * `doi_abstract_fid` with `abstract_fid`, `pub_date` with
   * `publication_date`, `article_type`, `title`): each requested DOI with
   * that field of its record, in request order. `None` where a lookup raises.
   */
  function FieldPairs(rd: Reader, lst: Option<seq<string>>, field: string): (r: Option<seq<(string, Value)>>)
    ensures var ds := Requested(rd, lst); var info := rd.info.doiArticleInfo.vals;
      && (r.Some? <==> HasField(ds, info, field))
      && (r.Some? ==> |r.value| == |ds| && forall i :: 0 <= i < |ds| ==> r.value[i] == (ds[i], info[ds[i]][field]))
  {
    var ds := Requested(rd, lst);
    var info := rd.info.doiArticleInfo.vals;
    if HasField(ds, info, field) then
      Some(seq(|ds|, i requires 0 <= i < |ds| && HasField(ds, info, field) => (ds[i], info[ds[i]][field])))
    else None
  }

  /** `author(lst)`: each requested DOI with its author field as a tuple. */
  function Authors(rd: Reader, lst: Option<seq<string>>): (r: Option<seq<(string, seq<string>)>>)
    ensures var ds := Requested(rd, lst); var info := rd.info.doiArticleInfo.vals;
      && (r.Some? <==> HasField(ds, info, "author"))
      && (r.Some? ==> |r.value| == |ds| && forall i :: 0 <= i < |ds| ==> r.value[i] == (ds[i], AsTuple(info[ds[i]]["author"])))
  {
    match FieldPairs(rd, lst, "author")
    case None => None
    case Some(ps) => Some(seq(|ps|, i requires 0 <= i < |ps| => (ps[i].0, AsTuple(ps[i].1))))
  }

  /**
   * On a well-formed index every DOI has an article record, so asking for
   * every DOI's record succeeds, and each DOI's body and abstract file names
   * are the ones derived from it.
   */
  lemma WellFormedLookups(rd: Reader)
    requires WellFormedIndex(rd.info)
    ensures ArticleInfos(rd, None).Some?
    ensures var ds := Dois(rd); var b := FieldPairs(rd, None, "body_fid");
      b.Some? && forall i :: 0 <= i < |ds| ==> b.value[i] == (ds[i], Str(TxtName(ds[i], "body")))
    ensures var ds := Dois(rd); var a := FieldPairs(rd, None, "abstract_fid");
      a.Some? && forall i :: 0 <= i < |ds| ==> a.value[i] == (ds[i], Str(TxtName(ds[i], "abstract")))
  {
    DoisAreIndexKeys(rd);
  }

  /** With no file ids given, the file ids of a consistent index are the keys of the category map. */
  lemma DefaultFileidsAreCatMapKeys(files: map<string, IndexRecord>, root: string, opts: ReaderOptions)
    requires opts.fileids.None? && OpenReader(files, root, opts).Some?
    requires OpenReader(files, root, opts).value.info.doisToCategories.Valid()
    ensures var rd := OpenReader(files, root, opts).value;
      forall f :: f in rd.catMap <==> f in rd.fileids
  {
    var rd := OpenReader(files, root, opts).value;
    var d2c := rd.info.doisToCategories;
    var ds := Dois(rd);
    CatMapKeys(d2c.keys, d2c.vals, rd.docPart);
    forall f ensures f in rd.catMap <==> f in rd.fileids {
      if f in rd.catMap {
        var d :| d in d2c.keys && d in d2c.vals && f == TxtName(d, rd.docPart);
        var i :| 0 <= i < |ds| && ds[i] == d;
        assert rd.fileids[i] == f;
      }
    }
  }

  /**
   * On an index whose DOIs hold no `-`, each default file id's categories
   * in the category map are exactly its DOI's.
   */
  lemma DefaultFileidsCategorized(files: map<string, IndexRecord>, root: string, opts: ReaderOptions)
    requires opts.fileids.None? && OpenReader(files, root, opts).Some?
    requires var rd := OpenReader(files, root, opts).value;
      rd.info.doisToCategories.Valid() &&
      forall i :: 0 <= i < |rd.info.doisToCategories.keys| ==> '-' !in rd.info.doisToCategories.keys[i]
    ensures var rd := OpenReader(files, root, opts).value;
      forall i :: 0 <= i < |rd.fileids| ==>
        rd.fileids[i] in rd.catMap && rd.catMap[rd.fileids[i]] == rd.info.doisToCategories.vals[Dois(rd)[i]]
  {
    var rd := OpenReader(files, root, opts).value;
    var d2c := rd.info.doisToCategories;
    forall i | 0 <= i < |rd.fileids| ensures rd.fileids[i] in rd.catMap && rd.catMap[rd.fileids[i]] == d2c.vals[Dois(rd)[i]] {
      CatMapExact(d2c.keys, d2c.vals, rd.docPart, d2c.keys[i]);
    }
  }

  /** Index file paths of different corpus types differ. */
  lemma InfoPathInjective(root: string, t1: string, t2: string)
    requires InfoPath(root, t1) == InfoPath(root, t2)
    ensures t1 == t2
  {
    var p1 := InfoPath(root, t1);
    var n := |root| + 1;
    assert |t1| == |t2|;
    assert p1[n..n + |t1|] == t1;
    assert InfoPath(root, t2)[n..n + |t2|] == t2;
  }

  /**
   * Over the files a builder finalizes, with no file ids given: the full
   * and partial readers always open; the training reader opens iff the
   * builder has a training index, which for a balanced builder is iff
   * `train >= 1`. Given file ids, no reader opens.
   */
  lemma ReadersOfBuild(baseDir: string, st: BuilderState, opts: ReaderOptions)
    requires Balanced(st)
    ensures opts.fileids.Some? ==> OpenReader(FinalizeFiles(baseDir, st), baseDir, opts).None?
    ensures opts.fileids.None? && (opts.corpusType.None? || opts.corpusType == Some("full") || opts.corpusType == Some("partial")) ==>
      OpenReader(FinalizeFiles(baseDir, st), baseDir, opts).Some?
    ensures opts.fileids.None? && opts.corpusType == Some("training") ==>
      (OpenReader(FinalizeFiles(baseDir, st), baseDir, opts).Some? <==> st.train >= 1)
  {
    var files := FinalizeFiles(baseDir, st);
    if opts.corpusType == Some("training") && InfoPath(baseDir, "training") in files && st.training.None? {
      if InfoPath(baseDir, "training") == InfoPath(baseDir, "full") {
        InfoPathInjective(baseDir, "training", "full");
      } else {
        InfoPathInjective(baseDir, "training", "partial");
      }
    }
  }

  /**
   * A reader opened on the files of a well-formed build, of whatever corpus
   * type, finds an article record for every DOI, and each record names the
   * DOI's own body and abstract files.
   */
  lemma BuiltReadersWellFormed(baseDir: string, st: BuilderState, opts: ReaderOptions)
    requires WellFormedState(st)
    ensures var rd := OpenReader(FinalizeFiles(baseDir, st), baseDir, opts);
      rd.Some? ==> WellFormedIndex(rd.value.info) && ArticleInfos(rd.value, None).Some?
    ensures var rd := OpenReader(FinalizeFiles(baseDir, st), baseDir, opts);
      rd.Some? ==> var ds := Dois(rd.value); var b := FieldPairs(rd.value, None, "body_fid");
        b.Some? && forall i :: 0 <= i < |ds| ==> b.value[i] == (ds[i], Str(TxtName(ds[i], "body")))
  {
    var rd := OpenReader(FinalizeFiles(baseDir, st), baseDir, opts);
    if rd.Some? {
      WellFormedLookups(rd.value);
    }
  }

  /** The full reader of a balanced build lists every DOI of the partial and training readers, and no other. */
  lemma FullReaderDois(baseDir: string, st: BuilderState, opts: ReaderOptions)
    requires Balanced(st) && opts.corpusType.None? && opts.fileids.None?
    ensures var rd := OpenReader(FinalizeFiles(baseDir, st), baseDir, opts);
      rd.Some? && forall d :: d in Dois(rd.value) <==> d in st.partial.doisToCategories.vals || d in DoisOf(st.training)
  {
    var rd := OpenReader(FinalizeFiles(baseDir, st), baseDir, opts);
    DoisAreIndexKeys(rd.value);
  }
}
