/**
 * The helpers shared by the corpus builders and readers: file names derived
 * from DOIs, the "one, many or all" argument convention, and copying a
 * fixed list of fields out of a document with `''` for the missing ones.
 */
module CorpusUtil {
  import opened Strings
  import opened Docs
  import opened PyDict

  /** The suffix of a text artifact: `-body.txt`, `-abstract.txt`. */
  function PartSuffix(part: string): string {
    "-" + part + ".txt"
  }

  /**
   * `doi2fn(doi, part)` on one DOI: the DOI with every `/` turned into `-`,
   * then `-`, the document part and `.txt`.
   */
  function TxtName(doi: string, part: string): (r: string)
    ensures |r| == |doi| + |part| + 5
    ensures forall i :: 0 <= i < |doi| ==> r[i] == if doi[i] == '/' then '-' else doi[i]
    ensures r[|doi|..] == PartSuffix(part)
  {
    ReplaceChar(doi, '/', '-') + PartSuffix(part)
  }

  /** `doi2fn(dois, part)` on a list: one file name per DOI, in the same order. */
  function TxtNames(dois: seq<string>, part: string): (r: seq<string>)
    ensures |r| == |dois|
    ensures forall i :: 0 <= i < |dois| ==> r[i] == TxtName(dois[i], part)
  {
    seq(|dois|, i requires 0 <= i < |dois| => TxtName(dois[i], part))
  }

  /** The JSON-per-document variant: the DOI with `/` turned into `-`, then `.json`. */
  function JsonName(doi: string): (r: string)
    ensures |r| == |doi| + 5
    ensures forall i :: 0 <= i < |doi| ==> r[i] == if doi[i] == '/' then '-' else doi[i]
    ensures r[|doi|..] == ".json"
  {
    ReplaceChar(doi, '/', '-') + ".json"
  }

  function JsonNames(dois: seq<string>): (r: seq<string>)
    ensures |r| == |dois|
    ensures forall i :: 0 <= i < |dois| ==> r[i] == JsonName(dois[i])
  {
    seq(|dois|, i requires 0 <= i < |dois| => JsonName(dois[i]))
  }

  /** A file name never holds a `/` when the document part holds none. */
  lemma TxtNameHasNoSlash(doi: string, part: string)
    requires '/' !in part
    ensures '/' !in TxtName(doi, part)
  {
    ReplaceCharRemoves(doi, '/', '-');
    assert TxtName(doi, part) == ReplaceChar(doi, '/', '-') + ("-" + part + ".txt");
  }

  lemma JsonNameHasNoSlash(doi: string)
    ensures '/' !in JsonName(doi)
  {
    ReplaceCharRemoves(doi, '/', '-');
  }

  /**
   * On DOIs without a `-`, different DOIs give different file names, so a
   * file name identifies its document.
   */
  lemma TxtNameInjective(d1: string, d2: string, part: string)
    requires '-' !in d1 && '-' !in d2
    requires TxtName(d1, part) == TxtName(d2, part)
    ensures d1 == d2
  {
    var r := TxtName(d1, part);
    assert |d1| == |d2|;
    forall i | 0 <= i < |d1| ensures d1[i] == d2[i] {
      assert r[i] == if d1[i] == '/' then '-' else d1[i];
      assert r[i] == if d2[i] == '/' then '-' else d2[i];
    }
  }

  /**
   * Without that condition the names collide: turning any `/` of a DOI into
   * `-` gives a different DOI with the same file name.
   */
  lemma TxtNameCollision(doi: string, k: int, part: string)
    requires 0 <= k < |doi| && doi[k] == '/'
    ensures doi[k := '-'] != doi
    ensures TxtName(doi[k := '-'], part) == TxtName(doi, part)
  {
    var d := doi[k := '-'];
    assert d[k] != doi[k];
    var r1 := TxtName(d, part);
    var r2 := TxtName(doi, part);
    assert |r1| == |r2|;
    forall i | 0 <= i < |r1| ensures r1[i] == r2[i] {
      if i >= |doi| {
        assert r1[i] == r1[|doi|..][i - |doi|] == PartSuffix(part)[i - |doi|];
        assert r2[i] == r2[|doi|..][i - |doi|] == PartSuffix(part)[i - |doi|];
      }
    }
  }

  /** The argument of `listafy`: `None`, one string, or a list. */
  datatype Arg = NoArg | One(s: string) | Many(items: seq<string>)

  /**
   * `listafy(obj, d)`: `None` means every key of `d` (each once), a string
   * becomes a one-element list, and a list is returned unchanged.
   */
  function Listafy<V>(obj: Arg, d: Dict<V>): (r: seq<string>)
    requires d.Valid()
    ensures obj.NoArg? ==> (forall k :: k in r <==> k in d.vals) && |r| == |d.vals|
    ensures obj.One? ==> r == [obj.s]
    ensures obj.Many? ==> r == obj.items
  {
    match obj
    case NoArg => DistinctCard(d.keys, d.vals.Keys); d.keys
    case One(s) => [s]
    case Many(items) => items
  }

  /** A list of distinct elements has as many entries as its set. */
  lemma {:induction false} DistinctCard(ks: seq<string>, s: set<string>)
    requires forall i, j :: 0 <= i < j < |ks| ==> ks[i] != ks[j]
    requires forall k :: k in s <==> k in ks
    ensures |ks| == |s|
  {
    if |ks| > 0 {
      var last := ks[|ks| - 1];
      var front := ks[..|ks| - 1];
      assert last !in front;
      forall k ensures k in s - {last} <==> k in front {
        if k in ks && k != last {
          var i :| 0 <= i < |ks| && ks[i] == k;
          assert i < |ks| - 1;
          assert front[i] == k;
        }
      }
      DistinctCard(front, s - {last});
    }
  }

  /**
   * `field_list_to_dict(doc, keys)`: exactly the listed keys, each holding
   * the document's value, or `''` when the document lacks that field.
   */
  function FieldListToDict(doc: Doc, keys: seq<string>): (r: map<string, Value>)
    ensures forall k :: k in r <==> k in keys
    ensures forall k :: k in r && k in doc ==> r[k] == doc[k]
    ensures forall k :: k in r && k !in doc ==> r[k] == Str("")
  {
    map k | k in keys :: if k in doc then doc[k] else Str("")
  }
}
