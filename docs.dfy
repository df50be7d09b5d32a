/**
 * Search results as the repository sees them: each document is a Python dict
 * from field names to either a string or a list of strings, as the search
 * backend returns them in JSON.
 */
module Docs {

  datatype Value = Str(s: string) | Strs(items: seq<string>)

  type Doc = map<string, Value>

  /** The `subject` field, when present, is a list of category labels. */
  predicate SubjectIsList(doc: Doc) {
    "subject" in doc ==> doc["subject"].Strs?
  }

  /** `[] if 'subject' not in doc else doc['subject']`. */
  function Subjects(doc: Doc): (r: seq<string>)
    requires SubjectIsList(doc)
    ensures "subject" !in doc ==> r == []
    ensures "subject" in doc ==> doc["subject"] == Strs(r)
  {
    if "subject" in doc then doc["subject"].items else []
  }

  /** Python's `tuple(v)`: a list keeps its items; a string falls apart into its characters. */
  function AsTuple(v: Value): (r: seq<string>)
    ensures v.Strs? ==> r == v.items
    ensures v.Str? ==> |r| == |v.s| && forall i :: 0 <= i < |r| ==> r[i] == [v.s[i]]
  {
    match v
    case Strs(items) => items
    case Str(s) => seq(|s|, i requires 0 <= i < |s| => [s[i]])
  }

  /** Python's `len(v)`: the items of a list, the characters of a string. */
  function Len(v: Value): (n: nat)
    ensures n == |AsTuple(v)|
  {
    match v
    case Strs(items) => |items|
    case Str(s) => |s|
  }

  /**
   * A document whose text files can be written: `doc['body']` is a string
   * (a list raises on the encoding writer) and `doc['abstract'][0]` exists
   * (a missing field raises `KeyError`, an empty one `IndexError`).
   */
  predicate Writable(doc: Doc) {
    && "body" in doc && doc["body"].Str?
    && "abstract" in doc && Len(doc["abstract"]) > 0
  }
}

/**
 * A Python dict whose key order shows in results (`d.keys()`, iteration):
 * a map together with the order in which its keys were first inserted.
 */
module PyDict {

  datatype Dict<V> = Dict(keys: seq<string>, vals: map<string, V>) {

    /** The keys are listed once each, and exactly the map's keys are listed. */
    ghost predicate Valid() {
      && (forall i, j :: 0 <= i < j < |keys| ==> keys[i] != keys[j])
      && (forall k :: k in vals <==> k in keys)
    }

    /** `d[k] = v`: a new key goes to the end of the order, an old one keeps its place. */
    function Put(k: string, v: V): (d: Dict<V>)
      requires Valid()
      ensures d.Valid()
      ensures d.vals == vals[k := v]
      ensures k in vals ==> d.keys == keys
      ensures k !in vals ==> d.keys == keys + [k]
    {
      if k in vals then Dict(keys, vals[k := v]) else Dict(keys + [k], vals[k := v])
    }
  }

  function Empty<V>(): (d: Dict<V>)
    ensures d.Valid() && d.keys == [] && d.vals == map[]
  {
    Dict([], map[])
  }
}
