/**
 * The k-nearest-neighbour classifier of `src/gitPLOS/classifiers/kNN.py`
 * and its copy `openAccess/gitPLoS/classifiers/kNN.py`.
 *
 * Training data is a list of `(category, vector)` samples. `calculate(x)`
 * measures the distance from the query vector to every sample, sorts the
 * `(distance, category, vector)` triples, lets the first `k` of them vote
 * for their categories with a weight function, and returns every training
 * category with its total weight, heaviest first. `classify(x)` returns the
 * head of that list.
 *
 * Vectors hold integers. The Euclidean distance is modelled by its square:
 * the square root is increasing, so the neighbours sort the same way and
 * every vote is the same.
 */
module Knn {
  import opened Wrappers
  import opened Strings
  import opened PyDict
  import opened Sorting

  type Vec = seq<int>

  /** The query: a list of numbers, or a single number (anything that is not a list). */
  datatype Query = Scalar(v: int) | Vector(vs: Vec)

  /** `x_lst`: a query that is not a list becomes a one-element list. */
  function Wrap(x: Query): (xl: Vec)
    ensures x.Scalar? ==> xl == [x.v]
    ensures x.Vector? ==> xl == x.vs
  {
    match x
    case Scalar(v) => [v]
    case Vector(vs) => vs
  }

  function Abs(n: int): nat {
    if n < 0 then -n else n
  }

  // ---------------------------------------------------------------------
  // Distances

  /** The sum of `|p[i] - q[i]|` over the first `n` places. */
  function SumAbs(p: Vec, q: Vec, n: nat): nat
    requires n <= |p| && n <= |q|
  {
    if n == 0 then 0 else SumAbs(p, q, n - 1) + Abs(p[n - 1] - q[n - 1])
  }

  /** `_vec_manhattan_dist(p, q)`; it indexes `p` at every place of `q`. */
  function Manhattan(p: Vec, q: Vec): nat
    requires |q| <= |p|
  {
    SumAbs(p, q, |q|)
  }

  lemma {:induction false} SumAbsSymmetric(p: Vec, q: Vec, n: nat)
    requires n <= |p| && n <= |q|
    ensures SumAbs(p, q, n) == SumAbs(q, p, n)
  {
    if n > 0 {
      SumAbsSymmetric(p, q, n - 1);
    }
  }

  lemma {:induction false} SumAbsZero(p: Vec, q: Vec, n: nat)
    requires n <= |p| && n <= |q|
    ensures SumAbs(p, q, n) == 0 <==> forall i :: 0 <= i < n ==> p[i] == q[i]
  {
    if n > 0 {
      SumAbsZero(p, q, n - 1);
    }
  }

  /** On vectors of one length the Manhattan distance is symmetric and zero exactly on equal vectors. */
  lemma ManhattanIsMetric(p: Vec, q: Vec)
    requires |p| == |q|
    ensures Manhattan(p, q) == Manhattan(q, p)
    ensures Manhattan(p, q) == 0 <==> p == q
  {
    SumAbsSymmetric(p, q, |q|);
    SumAbsZero(p, q, |q|);
  }

  /** The largest `|p[i] - q[i]|` over the first `n` places. */
  function MaxAbs(p: Vec, q: Vec, n: nat): (m: nat)
    requires 1 <= n <= |p| && n <= |q|
    ensures forall i :: 0 <= i < n ==> Abs(p[i] - q[i]) <= m
    ensures exists i :: 0 <= i < n && m == Abs(p[i] - q[i])
  {
    if n == 1 then Abs(p[0] - q[0])
    else
      var m := MaxAbs(p, q, n - 1);
      var a := Abs(p[n - 1] - q[n - 1]);
      if a > m then a else m
  }

  /** `_vec_chebyshev_dist(p, q)`; `max` of an empty list raises, so `q` is not empty. */
  function Chebyshev(p: Vec, q: Vec): nat
    requires 0 < |q| <= |p|
  {
    MaxAbs(p, q, |q|)
  }

  lemma {:induction false} MaxAbsAtMostSum(p: Vec, q: Vec, n: nat)
    requires 1 <= n <= |p| && n <= |q|
    ensures MaxAbs(p, q, n) <= SumAbs(p, q, n)
  {
    if n > 1 {
      MaxAbsAtMostSum(p, q, n - 1);
    }
  }

  /** The Chebyshev distance is at most the Manhattan distance. */
  lemma ChebyshevAtMostManhattan(p: Vec, q: Vec)
    requires 0 < |q| <= |p|
    ensures Chebyshev(p, q) <= Manhattan(p, q)
  {
    MaxAbsAtMostSum(p, q, |q|);
  }

  /** The sum of `(p[i] - q[i])^2` over the first `n` places. */
  function SumSq(p: Vec, q: Vec, n: nat): nat
    requires n <= |p| && n <= |q|
  {
    if n == 0 then 0 else SumSq(p, q, n - 1) + (p[n - 1] - q[n - 1]) * (p[n - 1] - q[n - 1])
  }

  /** The square of `_vec_euclidean_dist(p, q)`; it indexes `q` at every place of `p`. */
  function SquaredEuclidean(p: Vec, q: Vec): nat
    requires |p| <= |q|
  {
    SumSq(p, q, |p|)
  }

  lemma {:induction false} SumSqZero(p: Vec, q: Vec, n: nat)
    requires n <= |p| && n <= |q|
    ensures SumSq(p, q, n) == 0 <==> forall i :: 0 <= i < n ==> p[i] == q[i]
  {
    if n > 0 {
      SumSqZero(p, q, n - 1);
      var d := p[n - 1] - q[n - 1];
      assert d * d == 0 <==> d == 0;
    }
  }

  /** On vectors of one length the Euclidean distance is zero exactly on equal vectors. */
  lemma SquaredEuclideanZero(p: Vec, q: Vec)
    requires |p| == |q|
    ensures SquaredEuclidean(p, q) == 0 <==> p == q
  {
    SumSqZero(p, q, |p|);
  }

  /** The distance functions `calculate` can be given. */
  datatype Metric = VecManhattan | VecChebyshev | VecEuclidean

  /** `dist_fn(p, q)`, or `None` where it raises (an index out of range, `max` of nothing). */
  function Distance(m: Metric, p: Vec, q: Vec): (r: Option<int>)
    ensures r.Some? <==> match m
      case VecManhattan => |q| <= |p|
      case VecChebyshev => 0 < |q| <= |p|
      case VecEuclidean => |p| <= |q|
    ensures r.Some? ==> r.value >= 0
  {
    match m
    case VecManhattan => if |q| <= |p| then Some(Manhattan(p, q)) else None
    case VecChebyshev => if 0 < |q| <= |p| then Some(Chebyshev(p, q)) else None
    case VecEuclidean => if |p| <= |q| then Some(SquaredEuclidean(p, q)) else None
  }

  /** `_eq_weight(x, y)`: every neighbour weighs one. */
  function EqWeight(x: Query, v: Vec): int {
    1
  }

  // ---------------------------------------------------------------------
  // Orders

  /** Python's comparison of two lists of numbers: the first difference decides, a prefix comes first. */
  predicate VecLe(a: Vec, b: Vec) {
    if |a| == 0 then true
    else if |b| == 0 then false
    else if a[0] != b[0] then a[0] < b[0]
    else VecLe(a[1..], b[1..])
  }

  lemma {:induction false} VecLeTotal(a: Vec, b: Vec)
    ensures VecLe(a, b) || VecLe(b, a)
  {
    if |a| > 0 && |b| > 0 && a[0] == b[0] {
      VecLeTotal(a[1..], b[1..]);
    }
  }

  lemma {:induction false} VecLeAntisymmetric(a: Vec, b: Vec)
    requires VecLe(a, b) && VecLe(b, a)
    ensures a == b
  {
    if |a| > 0 && |b| > 0 {
      VecLeAntisymmetric(a[1..], b[1..]);
      assert a == [a[0]] + a[1..];
      assert b == [b[0]] + b[1..];
    }
  }

  lemma {:induction false} VecLeTransitive(a: Vec, b: Vec, c: Vec)
    requires VecLe(a, b) && VecLe(b, c)
    ensures VecLe(a, c)
  {
    if |a| > 0 && |b| > 0 && |c| > 0 && a[0] == b[0] && b[0] == c[0] {
      VecLeTransitive(a[1..], b[1..], c[1..]);
    }
  }

  /** `(distance, category, vector)`. */
  type Neighbour = (int, string, Vec)

  /** `(weight, category)`. */
  type Vote = (int, string)

  /** Python's order on `(distance, category, vector)` triples. */
  predicate NeighbourLe(a: Neighbour, b: Neighbour) {
    a.0 < b.0 || (a.0 == b.0 && ((a.1 != b.1 && StrLe(a.1, b.1)) || (a.1 == b.1 && VecLe(a.2, b.2))))
  }

  /** The reverse of Python's order on `(weight, category)` pairs: `sorted(..., reverse=True)`. */
  predicate VoteGe(a: Vote, b: Vote) {
    a.0 > b.0 || (a.0 == b.0 && StrLe(b.1, a.1))
  }

  /** Both orders are total, transitive and antisymmetric, so each sort has one result. */
  lemma NeighbourOrder()
    ensures TotalOrder(NeighbourLe) && Antisymmetric(NeighbourLe)
  {
    forall a: Neighbour, b: Neighbour ensures NeighbourLe(a, b) || NeighbourLe(b, a) {
      StrLeTotal(a.1, b.1);
      VecLeTotal(a.2, b.2);
    }
    forall a: Neighbour, b: Neighbour, c: Neighbour | NeighbourLe(a, b) && NeighbourLe(b, c)
      ensures NeighbourLe(a, c)
    {
      if a.0 == b.0 == c.0 {
        if a.1 == b.1 == c.1 {
          VecLeTransitive(a.2, b.2, c.2);
        } else {
          if a.1 != b.1 && b.1 != c.1 {
            StrLeTransitive(a.1, b.1, c.1);
          }
          if a.1 == c.1 {
            StrLeAntisymmetric(a.1, b.1);
          }
        }
      }
    }
    forall a: Neighbour, b: Neighbour | NeighbourLe(a, b) && NeighbourLe(b, a) ensures a == b {
      if a.1 == b.1 {
        VecLeAntisymmetric(a.2, b.2);
      } else {
        StrLeAntisymmetric(a.1, b.1);
      }
    }
  }

  lemma VoteOrder()
    ensures TotalOrder(VoteGe) && Antisymmetric(VoteGe)
  {
    forall a: Vote, b: Vote ensures VoteGe(a, b) || VoteGe(b, a) {
      StrLeTotal(a.1, b.1);
    }
    forall a: Vote, b: Vote, c: Vote | VoteGe(a, b) && VoteGe(b, c) ensures VoteGe(a, c) {
      if a.0 == b.0 == c.0 {
        StrLeTransitive(c.1, b.1, a.1);
      }
    }
    forall a: Vote, b: Vote | VoteGe(a, b) && VoteGe(b, a) ensures a == b {
      StrLeAntisymmetric(a.1, b.1);
    }
  }

  // ---------------------------------------------------------------------
  // calculate

  /** A training sample, `(category, vector)`. */
  type Sample = (string, Vec)

  /** `[(dist_fn(x_lst, v), c, v) for c, v in data]`; `None` where a distance raises. */
  function Neighbours(data: seq<Sample>, xl: Vec, m: Metric): (r: Option<seq<Neighbour>>)
    ensures r.Some? <==> forall i :: 0 <= i < |data| ==> Distance(m, xl, data[i].1).Some?
    ensures r.Some? ==> |r.value| == |data|
    ensures r.Some? ==> forall i :: 0 <= i < |data| ==> r.value[i] == (Distance(m, xl, data[i].1).value, data[i].0, data[i].1)
  {
    if forall i :: 0 <= i < |data| ==> Distance(m, xl, data[i].1).Some? then
      Some(seq(|data|, i requires 0 <= i < |data| && Distance(m, xl, data[i].1).Some? =>
                         (Distance(m, xl, data[i].1).value, data[i].0, data[i].1)))
    else None
  }

  /** Python's `s[:k]`: a negative `k` drops that many items from the end. */
  function Prefix<T>(s: seq<T>, k: int): seq<T> {
    if k >= 0 then (if k < |s| then s[..k] else s)
    else if |s| + k > 0 then s[..|s| + k] else []
  }

  /** `dist[:k]`, after sorting: the neighbours that vote. */
  function Nearest(data: seq<Sample>, k: int, x: Query, m: Metric): (r: Option<seq<Neighbour>>)
    ensures r.Some? <==> Neighbours(data, Wrap(x), m).Some?
  {
    match Neighbours(data, Wrap(x), m)
    case None => None
    case Some(ns) => Some(Prefix(SortBy(ns, NeighbourLe), k))
  }

  /**
   * The voters are the `k` nearest (or, for a negative `k`, all but the
   * `-k` farthest): a prefix of the sorted triples, each voter no farther
   * than any neighbour left out.
   */
  lemma NearestAreNearest(data: seq<Sample>, k: int, x: Query, m: Metric)
    requires Nearest(data, k, x, m).Some?
    ensures var near := Nearest(data, k, x, m).value;
      var sorted := SortBy(Neighbours(data, Wrap(x), m).value, NeighbourLe);
      && |near| == (if k >= 0 then (if k < |data| then k else |data|) else if |data| + k > 0 then |data| + k else 0)
      && near == sorted[..|near|]
      && forall i, j :: 0 <= i < |near| <= j < |sorted| ==> NeighbourLe(near[i], sorted[j]) && near[i].0 <= sorted[j].0
  {
    var sorted := SortBy(Neighbours(data, Wrap(x), m).value, NeighbourLe);
    NeighbourOrder();
    SortBySorted(Neighbours(data, Wrap(x), m).value, NeighbourLe);
  }

  /** `c` is the category of some training sample. */
  predicate InData(data: seq<Sample>, c: string) {
    exists j :: 0 <= j < |data| && data[j].0 == c
  }

  /** Every voter's category is a training category. */
  predicate VotersInData(data: seq<Sample>, near: seq<Neighbour>) {
    forall i :: 0 <= i < |near| ==> InData(data, near[i].1)
  }

  lemma NearInData(data: seq<Sample>, k: int, x: Query, m: Metric)
    requires Nearest(data, k, x, m).Some?
    ensures VotersInData(data, Nearest(data, k, x, m).value)
  {
    var ns := Neighbours(data, Wrap(x), m).value;
    var sorted := SortBy(ns, NeighbourLe);
    var near := Nearest(data, k, x, m).value;
    forall i | 0 <= i < |near| ensures InData(data, near[i].1) {
      assert near[i] == sorted[i];
      assert sorted[i] in multiset(ns);
      var j :| 0 <= j < |ns| && ns[j] == sorted[i];
      assert data[j].0 == near[i].1;
    }
  }

  /**
   * `{c: 0.0 for c, v in data}`: each category once at weight zero. The
   * plain dict's iteration order is unspecified; first appearance stands in
   * for it, and `CalculateOrderFree` shows that no result depends on it.
   */
  function ZeroWeights(data: seq<Sample>): (w: Dict<int>)
    ensures w.Valid()
  {
    if |data| == 0 then Empty() else ZeroWeights(data[..|data| - 1]).Put(data[|data| - 1].0, 0)
  }

  /** The keys are exactly the training categories, and every weight starts at zero. */
  lemma {:induction false} ZeroWeightsFacts(data: seq<Sample>)
    ensures forall c :: c in ZeroWeights(data).vals <==> InData(data, c)
    ensures forall c :: c in ZeroWeights(data).vals ==> ZeroWeights(data).vals[c] == 0
  {
    if |data| > 0 {
      var front := data[..|data| - 1];
      ZeroWeightsFacts(front);
      forall c ensures InData(data, c) <==> InData(front, c) || c == data[|data| - 1].0 {
        if InData(data, c) && c != data[|data| - 1].0 {
          var j :| 0 <= j < |data| && data[j].0 == c;
          assert front[j] == data[j];
        }
        if InData(front, c) {
          var j :| 0 <= j < |front| && front[j].0 == c;
          assert front[j] == data[j];
        }
        if c == data[|data| - 1].0 {
          assert data[|data| - 1].0 == c;
        }
      }
    }
  }

  /** The loop `weights[c] += wt_fn(x, v)` over the voters. */
  function Tally(near: seq<Neighbour>, x: Query, wt: (Query, Vec) -> int, w: map<string, int>): (r: map<string, int>)
    requires forall i :: 0 <= i < |near| ==> near[i].1 in w
    ensures r.Keys == w.Keys
  {
    if |near| == 0 then w
    else
      var t := Tally(near[..|near| - 1], x, wt, w);
      var c := near[|near| - 1].1;
      t[c := t[c] + wt(x, near[|near| - 1].2)]
  }

  /** The weight the voters of category `c` give it. */
  function Votes(near: seq<Neighbour>, c: string, x: Query, wt: (Query, Vec) -> int): int {
    if |near| == 0 then 0
    else
      var n := near[|near| - 1];
      Votes(near[..|near| - 1], c, x, wt) + (if n.1 == c then wt(x, n.2) else 0)
  }

  /** The weight all voters give. */
  function TotalVotes(near: seq<Neighbour>, x: Query, wt: (Query, Vec) -> int): int {
    if |near| == 0 then 0 else TotalVotes(near[..|near| - 1], x, wt) + wt(x, near[|near| - 1].2)
  }

  /** Each category's weight after the loop is its start weight plus the votes of its own voters only. */
  lemma {:induction false} TallyVotes(near: seq<Neighbour>, x: Query, wt: (Query, Vec) -> int, w: map<string, int>, c: string)
    requires forall i :: 0 <= i < |near| ==> near[i].1 in w
    requires c in w
    ensures Tally(near, x, wt, w)[c] == w[c] + Votes(near, c, x, wt)
  {
    if |near| > 0 {
      TallyVotes(near[..|near| - 1], x, wt, w, c);
    }
  }

  /** With `_eq_weight` every voter gives one. */
  lemma {:induction false} EqualVotes(near: seq<Neighbour>, x: Query)
    ensures TotalVotes(near, x, EqWeight) == |near|
  {
    if |near| > 0 {
      EqualVotes(near[..|near| - 1], x);
    }
  }

  /** With a weight function that is never negative no category's votes are negative. */
  lemma {:induction false} VotesNonNegative(near: seq<Neighbour>, c: string, x: Query, wt: (Query, Vec) -> int)
    requires forall v :: wt(x, v) >= 0
    ensures Votes(near, c, x, wt) >= 0
  {
    if |near| > 0 {
      VotesNonNegative(near[..|near| - 1], c, x, wt);
    }
  }

  /** `[(v, c) for c, v in weights.iteritems()]`, iterating in the key order `keys`. */
  function Items(keys: seq<string>, vals: map<string, int>): (r: seq<Vote>)
    requires forall i :: 0 <= i < |keys| ==> keys[i] in vals
  {
    seq(|keys|, i requires 0 <= i < |keys| => (vals[keys[i]], keys[i]))
  }

  /** The `(weight, category)` pairs after the voting loop, before the final sort. */
  function VoteItems(data: seq<Sample>, near: seq<Neighbour>, x: Query, wt: (Query, Vec) -> int): seq<Vote>
    requires VotersInData(data, near)
  {
    var w := ZeroWeights(data);
    ZeroWeightsFacts(data);
    Items(w.keys, Tally(near, x, wt, w.vals))
  }

  /** `calculate(x, wt_fn, dist_fn)`; `None` where a distance raises. */
  function CalculateSpec(data: seq<Sample>, k: int, x: Query, wt: (Query, Vec) -> int, m: Metric): (r: Option<seq<Vote>>)
    ensures r.Some? <==> Neighbours(data, Wrap(x), m).Some?
  {
    match Nearest(data, k, x, m)
    case None => None
    case Some(near) =>
      NearInData(data, k, x, m);
      Some(SortBy(VoteItems(data, near, x, wt), VoteGe))
  }

  /** `calculate`: the voting loop over the first `k` sorted triples. */
  method Calculate(data: seq<Sample>, k: int, x: Query, wt: (Query, Vec) -> int, m: Metric) returns (r: Option<seq<Vote>>)
    ensures r == CalculateSpec(data, k, x, wt, m)
  {
    var xl := if x.Vector? then x.vs else [x.v];
    var dist := Neighbours(data, xl, m);
    if dist.None? {
      return None;
    }
    var near := Prefix(SortBy(dist.value, NeighbourLe), k);
    assert Nearest(data, k, x, m) == Some(near);
    NearInData(data, k, x, m);
    var weights := ZeroWeights(data);
    ZeroWeightsFacts(data);
    var vals := Accumulate(weights.vals, near, x, wt);
    r := Some(SortBy(Items(weights.keys, vals), VoteGe));
  }

  /**
   * The loop `for d, c, v in near: weights[c] += wt_fn(x, v)`. Every `c`
   * is already a key, so the dictionary's key order does not change and
   * only its values are followed here.
   */
  method Accumulate(w0: map<string, int>, near: seq<Neighbour>, x: Query, wt: (Query, Vec) -> int) returns (weights: map<string, int>)
    requires forall i :: 0 <= i < |near| ==> near[i].1 in w0
    ensures weights == Tally(near, x, wt, w0)
  {
    weights := w0;
    for i := 0 to |near|
      invariant weights == Tally(near[..i], x, wt, w0)
    {
      TallySnoc(near, i, x, wt, w0);
      var c := near[i].1;
      weights := weights[c := weights[c] + wt(x, near[i].2)];
    }
    assert near[..|near|] == near;
  }

  /** One more turn of the voting loop. */
  lemma TallySnoc(near: seq<Neighbour>, i: nat, x: Query, wt: (Query, Vec) -> int, w: map<string, int>)
    requires i < |near|
    requires forall j :: 0 <= j < |near| ==> near[j].1 in w
    ensures var t := Tally(near[..i], x, wt, w);
      Tally(near[..i + 1], x, wt, w) == t[near[i].1 := t[near[i].1] + wt(x, near[i].2)]
  {
    assert near[..i + 1][..i] == near[..i];
  }

  /** No category is listed twice. */
  predicate DistinctCats(s: seq<Vote>) {
    forall i, j :: 0 <= i < j < |s| ==> s[i].1 != s[j].1
  }

  /** `c` is listed. */
  predicate Listed(s: seq<Vote>, c: string) {
    exists i :: 0 <= i < |s| && s[i].1 == c
  }

  /** Inserting a new category keeps the categories distinct, whatever the order. */
  lemma {:induction false} InsertDistinct(x: Vote, s: seq<Vote>, le: (Vote, Vote) -> bool)
    requires DistinctCats(s) && forall i :: 0 <= i < |s| ==> s[i].1 != x.1
    ensures DistinctCats(Insert(x, s, le))
  {
    if |s| > 0 && !le(x, s[0]) {
      var rest := s[1..];
      DistinctTail(s);
      InsertDistinct(x, rest, le);
      var tail := Insert(x, rest, le);
      forall j | 0 <= j < |tail| ensures tail[j].1 != s[0].1 {
        assert tail[j] in multiset(tail);
        if tail[j] != x {
          assert tail[j] in multiset(rest);
          var p :| 0 <= p < |rest| && rest[p] == tail[j];
          assert rest[p] == s[p + 1];
        }
      }
      ConsDistinct(s[0], tail);
    } else if |s| > 0 {
      ConsDistinct(x, s);
    }
  }

  lemma DistinctTail(s: seq<Vote>)
    requires |s| > 0 && DistinctCats(s)
    ensures DistinctCats(s[1..])
  {
    forall i, j | 0 <= i < j < |s| - 1 ensures s[1..][i].1 != s[1..][j].1 {
      assert s[1..][i] == s[i + 1] && s[1..][j] == s[j + 1];
    }
  }

  lemma ConsDistinct(x: Vote, s: seq<Vote>)
    requires DistinctCats(s) && forall i :: 0 <= i < |s| ==> s[i].1 != x.1
    ensures DistinctCats([x] + s)
  {
    forall i, j | 0 <= i < j < |s| + 1 ensures ([x] + s)[i].1 != ([x] + s)[j].1 {
      assert ([x] + s)[j] == s[j - 1];
      if i > 0 {
        assert ([x] + s)[i] == s[i - 1];
      }
    }
  }

  lemma {:induction false} SortDistinct(s: seq<Vote>, le: (Vote, Vote) -> bool)
    requires DistinctCats(s)
    ensures DistinctCats(SortBy(s, le))
  {
    if |s| > 0 {
      var rest := s[1..];
      DistinctTail(s);
      SortDistinct(rest, le);
      var sorted := SortBy(rest, le);
      forall j | 0 <= j < |sorted| ensures sorted[j].1 != s[0].1 {
        assert sorted[j] in multiset(rest);
        var p :| 0 <= p < |rest| && rest[p] == sorted[j];
        assert rest[p] == s[p + 1];
      }
      InsertDistinct(s[0], sorted, le);
    }
  }

  /** Before the sort: each training category once, with its votes. */
  lemma VoteItemsFacts(data: seq<Sample>, near: seq<Neighbour>, x: Query, wt: (Query, Vec) -> int)
    requires VotersInData(data, near)
    ensures var items := VoteItems(data, near, x, wt);
      && |items| == |ZeroWeights(data).keys|
      && (forall i :: 0 <= i < |items| ==> items[i].1 == ZeroWeights(data).keys[i])
      && DistinctCats(items)
      && (forall c :: Listed(items, c) <==> InData(data, c))
      && (forall i :: 0 <= i < |items| ==> items[i].0 == Votes(near, items[i].1, x, wt))
  {
    VoteItemsKeys(data, near, x, wt);
    VoteItemsCategories(data, near, x, wt);
    VoteItemsWeights(data, near, x, wt);
  }

  lemma VoteItemsKeys(data: seq<Sample>, near: seq<Neighbour>, x: Query, wt: (Query, Vec) -> int)
    requires VotersInData(data, near)
    ensures var items := VoteItems(data, near, x, wt);
      && |items| == |ZeroWeights(data).keys|
      && (forall i :: 0 <= i < |items| ==> items[i].1 == ZeroWeights(data).keys[i])
  {
  }

  lemma VoteItemsCategories(data: seq<Sample>, near: seq<Neighbour>, x: Query, wt: (Query, Vec) -> int)
    requires VotersInData(data, near)
    ensures var items := VoteItems(data, near, x, wt);
      && DistinctCats(items)
      && (forall c :: Listed(items, c) <==> InData(data, c))
  {
    var w := ZeroWeights(data);
    ZeroWeightsFacts(data);
    var items := VoteItems(data, near, x, wt);
    forall c ensures Listed(items, c) <==> InData(data, c) {
      if InData(data, c) {
        var p :| 0 <= p < |w.keys| && w.keys[p] == c;
        assert items[p].1 == c;
      }
    }
  }

  lemma VoteItemsWeights(data: seq<Sample>, near: seq<Neighbour>, x: Query, wt: (Query, Vec) -> int)
    requires VotersInData(data, near)
    ensures var items := VoteItems(data, near, x, wt);
      forall i :: 0 <= i < |items| ==> items[i].0 == Votes(near, items[i].1, x, wt)
  {
    var w := ZeroWeights(data);
    ZeroWeightsFacts(data);
    var items := VoteItems(data, near, x, wt);
    var t := Tally(near, x, wt, w.vals);
    forall i | 0 <= i < |items| ensures items[i].0 == Votes(near, items[i].1, x, wt) {
      var c := w.keys[i];
      assert c in w.vals && w.vals[c] == 0;
      TallyVotes(near, x, wt, w.vals, c);
      assert items[i] == (t[c], c);
    }
  }

  /** The result of `calculate` is sorted heaviest first (the larger category first among equal weights), and lists no category twice. */
  lemma CalculateSorted(data: seq<Sample>, k: int, x: Query, wt: (Query, Vec) -> int, m: Metric)
    requires CalculateSpec(data, k, x, wt, m).Some?
    ensures var r := CalculateSpec(data, k, x, wt, m).value;
      SortedBy(r, VoteGe) && DistinctCats(r)
  {
    var near := Nearest(data, k, x, m).value;
    NearInData(data, k, x, m);
    var items := VoteItems(data, near, x, wt);
    VoteOrder();
    SortBySorted(items, VoteGe);
    VoteItemsFacts(data, near, x, wt);
    SortDistinct(items, VoteGe);
  }

  /** The result of `calculate` lists exactly the training categories, each with the votes of its own voters. */
  lemma CalculateVotes(data: seq<Sample>, k: int, x: Query, wt: (Query, Vec) -> int, m: Metric)
    requires CalculateSpec(data, k, x, wt, m).Some?
    ensures var r := CalculateSpec(data, k, x, wt, m).value; var near := Nearest(data, k, x, m).value;
      && (forall c :: Listed(r, c) <==> InData(data, c))
      && (forall i :: 0 <= i < |r| ==> r[i].0 == Votes(near, r[i].1, x, wt))
  {
    var near := Nearest(data, k, x, m).value;
    NearInData(data, k, x, m);
    var items := VoteItems(data, near, x, wt);
    var r := SortBy(items, VoteGe);
    VoteItemsFacts(data, near, x, wt);
    forall c ensures Listed(r, c) <==> Listed(items, c) {
      if Listed(r, c) {
        var i :| 0 <= i < |r| && r[i].1 == c;
        assert r[i] in multiset(items);
        var p :| 0 <= p < |items| && items[p] == r[i];
      }
      if Listed(items, c) {
        var p :| 0 <= p < |items| && items[p].1 == c;
        assert items[p] in multiset(r);
        var i :| 0 <= i < |r| && r[i] == items[p];
      }
    }
    forall i | 0 <= i < |r| ensures r[i].0 == Votes(near, r[i].1, x, wt) {
      assert r[i] in multiset(items);
      var p :| 0 <= p < |items| && items[p] == r[i];
    }
  }

  /** With a weight function that is never negative every listed weight is at least zero. */
  lemma CalculateNonNegative(data: seq<Sample>, k: int, x: Query, wt: (Query, Vec) -> int, m: Metric)
    requires CalculateSpec(data, k, x, wt, m).Some?
    requires forall v :: wt(x, v) >= 0
    ensures var r := CalculateSpec(data, k, x, wt, m).value;
      forall i :: 0 <= i < |r| ==> r[i].0 >= 0
  {
    var r := CalculateSpec(data, k, x, wt, m).value;
    CalculateVotes(data, k, x, wt, m);
    forall i | 0 <= i < |r| ensures r[i].0 >= 0 {
      VotesNonNegative(Nearest(data, k, x, m).value, r[i].1, x, wt);
    }
  }

  /**
   * `weights.iteritems()` may yield the pairs in any order: the sort under
   * an antisymmetric order makes the result the same for all of them.
   */
  lemma CalculateOrderFree(data: seq<Sample>, k: int, x: Query, wt: (Query, Vec) -> int, m: Metric, items: seq<Vote>)
    requires Nearest(data, k, x, m).Some?
    requires VotersInData(data, Nearest(data, k, x, m).value)
    requires multiset(items) == multiset(VoteItems(data, Nearest(data, k, x, m).value, x, wt))
    ensures Some(SortBy(items, VoteGe)) == CalculateSpec(data, k, x, wt, m)
  {
    var near := Nearest(data, k, x, m).value;
    var base := VoteItems(data, near, x, wt);
    VoteOrder();
    SortBySorted(items, VoteGe);
    SortBySorted(base, VoteGe);
    SortedUnique(SortBy(items, VoteGe), SortBy(base, VoteGe), VoteGe);
  }

  // ---------------------------------------------------------------------
  // The weights add up to the votes cast

  /** The listed weights added up. */
  function SumVotes(s: seq<Vote>): int {
    if |s| == 0 then 0 else s[0].0 + SumVotes(s[1..])
  }

  lemma {:induction false} InsertSum(x: Vote, s: seq<Vote>, le: (Vote, Vote) -> bool)
    ensures SumVotes(Insert(x, s, le)) == x.0 + SumVotes(s)
  {
    if |s| > 0 && !le(x, s[0]) {
      InsertSum(x, s[1..], le);
      assert Insert(x, s, le)[1..] == Insert(x, s[1..], le);
    } else if |s| > 0 {
      assert ([x] + s)[1..] == s;
    }
  }

  lemma {:induction false} SortSum(s: seq<Vote>, le: (Vote, Vote) -> bool)
    ensures SumVotes(SortBy(s, le)) == SumVotes(s)
  {
    if |s| > 0 {
      SortSum(s[1..], le);
      InsertSum(s[0], SortBy(s[1..], le), le);
    }
  }

  /** The weights of `keys` added up. */
  function SumOver(keys: seq<string>, vals: map<string, int>): int
    requires forall i :: 0 <= i < |keys| ==> keys[i] in vals
  {
    if |keys| == 0 then 0 else vals[keys[0]] + SumOver(keys[1..], vals)
  }

  lemma {:induction false} ItemsSum(keys: seq<string>, vals: map<string, int>)
    requires forall i :: 0 <= i < |keys| ==> keys[i] in vals
    ensures SumVotes(Items(keys, vals)) == SumOver(keys, vals)
  {
    if |keys| > 0 {
      ItemsSum(keys[1..], vals);
      assert Items(keys, vals)[1..] == Items(keys[1..], vals);
    }
  }

  lemma {:induction false} SumOverUnchanged(keys: seq<string>, vals: map<string, int>, c: string, v: int)
    requires forall i :: 0 <= i < |keys| ==> keys[i] in vals && keys[i] != c
    ensures SumOver(keys, vals[c := v]) == SumOver(keys, vals)
  {
    if |keys| > 0 {
      SumOverUnchanged(keys[1..], vals, c, v);
    }
  }

  /** Raising one listed weight by `delta` raises the sum by `delta`. */
  lemma {:induction false} SumOverBump(keys: seq<string>, vals: map<string, int>, c: string, delta: int)
    requires forall i :: 0 <= i < |keys| ==> keys[i] in vals
    requires forall i, j :: 0 <= i < j < |keys| ==> keys[i] != keys[j]
    requires c in keys
    ensures SumOver(keys, vals[c := vals[c] + delta]) == SumOver(keys, vals) + delta
  {
    if keys[0] == c {
      SumOverUnchanged(keys[1..], vals, c, vals[c] + delta);
    } else {
      SumOverBump(keys[1..], vals, c, delta);
    }
  }

  /** `SumOverBump` for a dictionary's own keys. */
  lemma BumpListed(w: Dict<int>, t: map<string, int>, c: string, delta: int)
    requires w.Valid() && t.Keys == w.vals.Keys && c in w.vals
    ensures forall i :: 0 <= i < |w.keys| ==> w.keys[i] in t
    ensures SumOver(w.keys, t[c := t[c] + delta]) == SumOver(w.keys, t) + delta
  {
    SumOverBump(w.keys, t, c, delta);
  }

  lemma {:induction false} TallySum(w: Dict<int>, near: seq<Neighbour>, x: Query, wt: (Query, Vec) -> int)
    requires w.Valid()
    requires forall i :: 0 <= i < |near| ==> near[i].1 in w.vals
    ensures SumOver(w.keys, Tally(near, x, wt, w.vals)) == SumOver(w.keys, w.vals) + TotalVotes(near, x, wt)
  {
    if |near| > 0 {
      var front := near[..|near| - 1];
      TallySum(w, front, x, wt);
      var t := Tally(front, x, wt, w.vals);
      BumpListed(w, t, near[|near| - 1].1, wt(x, near[|near| - 1].2));
    }
  }

  lemma {:induction false} SumOverZero(keys: seq<string>, vals: map<string, int>)
    requires forall i :: 0 <= i < |keys| ==> keys[i] in vals && vals[keys[i]] == 0
    ensures SumOver(keys, vals) == 0
  {
    if |keys| > 0 {
      SumOverZero(keys[1..], vals);
    }
  }

  /** The listed weights add up to the weight all voters give. */
  lemma CalculateTotal(data: seq<Sample>, k: int, x: Query, wt: (Query, Vec) -> int, m: Metric)
    requires CalculateSpec(data, k, x, wt, m).Some?
    ensures SumVotes(CalculateSpec(data, k, x, wt, m).value) == TotalVotes(Nearest(data, k, x, m).value, x, wt)
  {
    var near := Nearest(data, k, x, m).value;
    NearInData(data, k, x, m);
    var w := ZeroWeights(data);
    ZeroWeightsFacts(data);
    var t := Tally(near, x, wt, w.vals);
    SortSum(VoteItems(data, near, x, wt), VoteGe);
    ItemsSum(w.keys, t);
    TallySum(w, near, x, wt);
    SumOverZero(w.keys, w.vals);
  }

  /** Under `_eq_weight` and a `k` of zero or more, the weights add up to `min(k, len(data))`. */
  lemma EqualWeightTotal(data: seq<Sample>, k: int, x: Query, m: Metric)
    requires CalculateSpec(data, k, x, EqWeight, m).Some? && k >= 0
    ensures SumVotes(CalculateSpec(data, k, x, EqWeight, m).value) == if k < |data| then k else |data|
  {
    CalculateTotal(data, k, x, EqWeight, m);
    EqualVotes(Nearest(data, k, x, m).value, x);
    NearestAreNearest(data, k, x, m);
  }

  // ---------------------------------------------------------------------
  // classify

  /** `classify(x)`: the head of `calculate(x)`, or `None` for an empty list; the outer `None` where a distance raises. */
  method Classify(data: seq<Sample>, k: int, x: Query, wt: (Query, Vec) -> int, m: Metric) returns (r: Option<Option<Vote>>)
    ensures r.None? <==> CalculateSpec(data, k, x, wt, m).None?
    ensures r.Some? ==> var l := CalculateSpec(data, k, x, wt, m).value;
      (r.value.None? <==> |l| == 0) && (r.value.Some? ==> r.value.value == l[0])
  {
    var classLst := Calculate(data, k, x, wt, m);
    if classLst.None? {
      return None;
    }
    if |classLst.value| > 0 {
      return Some(Some(classLst.value[0]));
    }
    return Some(None);
  }

  /**
   * `classify` finds a class exactly when there is training data, and the
   * class it finds carries the largest weight.
   */
  lemma ClassifyHead(data: seq<Sample>, k: int, x: Query, wt: (Query, Vec) -> int, m: Metric)
    requires CalculateSpec(data, k, x, wt, m).Some?
    ensures var l := CalculateSpec(data, k, x, wt, m).value;
      && (|l| == 0 <==> |data| == 0)
      && (|l| > 0 ==> forall i :: 0 <= i < |l| ==> l[i].0 <= l[0].0)
  {
    var l := CalculateSpec(data, k, x, wt, m).value;
    CalculateSorted(data, k, x, wt, m);
    CalculateVotes(data, k, x, wt, m);
    if |data| > 0 {
      assert InData(data, data[0].0);
    }
    if |l| > 0 {
      assert Listed(l, l[0].1);
      forall i | 0 < i < |l| ensures l[i].0 <= l[0].0 {
        assert VoteGe(l[0], l[i]);
      }
    }
  }

  /** The training data of the module's `__main__` example, with every value doubled. */
  const ExampleData: seq<Sample> := [("a", [2]), ("b", [6]), ("b", [8]), ("a", [3]), ("c", [7])]

  /** The neighbour triples of the example's query. */
  const ExampleNeighbours: seq<Neighbour> := [(36, "a", [2]), (4, "b", [6]), (0, "b", [8]), (25, "a", [3]), (1, "c", [7])]

  /** The same triples, nearest first. */
  const ExampleSorted: seq<Neighbour> := [(0, "b", [8]), (1, "c", [7]), (4, "b", [6]), (25, "a", [3]), (36, "a", [2])]

  /** The example's category names differ. */
  lemma ExampleNamesDiffer()
    ensures "a" != "b" && "b" != "c" && "a" != "c"
  {
    assert "a"[0] != "b"[0] && "b"[0] != "c"[0] && "a"[0] != "c"[0];
  }

  lemma ExampleDistances()
    ensures Neighbours(ExampleData, [8], VecEuclidean) == Some(ExampleNeighbours)
  {
    var r := Neighbours(ExampleData, [8], VecEuclidean);
    assert r.Some?;
    assert r.value[0] == (36, "a", [2]);
    assert r.value[1] == (4, "b", [6]);
    assert r.value[2] == (0, "b", [8]);
    assert r.value[3] == (25, "a", [3]);
    assert r.value[4] == (1, "c", [7]);
    assert r.value == ExampleNeighbours;
  }

  /** A sorted permutation of the triples is what the sort returns. */
  lemma NeighboursSortTo(ns: seq<Neighbour>, sorted: seq<Neighbour>)
    requires multiset(ns) == multiset(sorted) && SortedBy(sorted, NeighbourLe)
    ensures SortBy(ns, NeighbourLe) == sorted
  {
    NeighbourOrder();
    SortBySorted(ns, NeighbourLe);
    SortedUnique(SortBy(ns, NeighbourLe), sorted, NeighbourLe);
  }

  lemma ExampleNearest()
    ensures Nearest(ExampleData, 3, Vector([8]), VecEuclidean) == Some(ExampleSorted[..3])
  {
    ExampleDistances();
    ExamplePermutation();
    ExampleSortedIsSorted();
    NeighboursSortTo(ExampleNeighbours, ExampleSorted);
  }

  lemma ExamplePermutation()
    ensures multiset(ExampleNeighbours) == multiset(ExampleSorted)
  {
    var ns := ExampleNeighbours;
    assert ExampleSorted == [ns[2], ns[4], ns[1], ns[3], ns[0]];
  }

  lemma ExampleSortedIsSorted()
    ensures SortedBy(ExampleSorted, NeighbourLe)
  {
    forall i, j | 0 <= i < j < |ExampleSorted| ensures NeighbourLe(ExampleSorted[i], ExampleSorted[j]) {
      assert ExampleSorted[i].0 < ExampleSorted[j].0;
    }
  }

  lemma ZeroWeightsSnoc(data: seq<Sample>, s: Sample)
    ensures ZeroWeights(data + [s]) == ZeroWeights(data).Put(s.0, 0)
  {
    assert (data + [s])[..|data|] == data;
  }

  /**
   * `{c: 0.0 for c, v in data}` on the example, in the model's insertion
   * order: "a", "b", "c". CPython 2.7 iterates this dict as "a", "c", "b";
   * `WorkedExampleAnyOrder` shows that the result does not depend on it.
   */
  lemma ExampleZero()
    ensures ZeroWeights(ExampleData).keys == ["a", "b", "c"]
  {
    ZeroWeightsOfFive(ExampleData);
  }

  /** One more sample adds its category to the key list unless it is already there. */
  lemma ZeroWeightsStep(data: seq<Sample>, s: Sample, ks: seq<string>, ks2: seq<string>)
    requires ZeroWeights(data).keys == ks
    requires forall k :: k in ZeroWeights(data).vals <==> k in ks
    requires ks2 == if s.0 in ks then ks else ks + [s.0]
    ensures ZeroWeights(data + [s]).keys == ks2
    ensures forall k :: k in ZeroWeights(data + [s]).vals <==> k in ks2
  {
    ZeroWeightsSnoc(data, s);
  }

  lemma ZeroWeightsOfFive(d: seq<Sample>)
    requires |d| == 5
    requires d[0].0 == "a" && d[1].0 == "b" && d[2].0 == "b" && d[3].0 == "a" && d[4].0 == "c"
    ensures ZeroWeights(d).keys == ["a", "b", "c"]
  {
    ExampleNamesDiffer();
    ZeroWeightsOfFour(d);
    ZeroWeightsPrefix(d, 4, ["a", "b"], ["a", "b", "c"]);
    assert d[..5] == d;
  }

  lemma ZeroWeightsOfFour(d: seq<Sample>)
    requires |d| == 5
    requires d[0].0 == "a" && d[1].0 == "b" && d[2].0 == "b" && d[3].0 == "a"
    ensures ZeroWeights(d[..4]).keys == ["a", "b"]
    ensures forall k :: k in ZeroWeights(d[..4]).vals <==> k in ["a", "b"]
  {
    ZeroWeightsOfTwo(d);
    ZeroWeightsPrefix(d, 2, ["a", "b"], ["a", "b"]);
    ZeroWeightsPrefix(d, 3, ["a", "b"], ["a", "b"]);
  }

  lemma ZeroWeightsOfTwo(d: seq<Sample>)
    requires |d| == 5
    requires d[0].0 == "a" && d[1].0 == "b"
    ensures ZeroWeights(d[..2]).keys == ["a", "b"]
    ensures forall k :: k in ZeroWeights(d[..2]).vals <==> k in ["a", "b"]
  {
    ExampleNamesDiffer();
    ZeroWeightsPrefix(d, 0, [], ["a"]);
    ZeroWeightsPrefix(d, 1, ["a"], ["a", "b"]);
  }

  /** `ZeroWeightsStep` on consecutive prefixes of one sequence. */
  lemma ZeroWeightsPrefix(d: seq<Sample>, i: nat, ks: seq<string>, ks2: seq<string>)
    requires i < |d|
    requires ZeroWeights(d[..i]).keys == ks
    requires forall k :: k in ZeroWeights(d[..i]).vals <==> k in ks
    requires ks2 == if d[i].0 in ks then ks else ks + [d[i].0]
    ensures ZeroWeights(d[..i + 1]).keys == ks2
    ensures forall k :: k in ZeroWeights(d[..i + 1]).vals <==> k in ks2
  {
    assert d[..i] + [d[i]] == d[..i + 1];
    ZeroWeightsStep(d[..i], d[i], ks, ks2);
  }

  lemma Votes3(n0: Neighbour, n1: Neighbour, n2: Neighbour, c: string, x: Query, wt: (Query, Vec) -> int)
    ensures Votes([n0, n1, n2], c, x, wt) ==
      (if n0.1 == c then wt(x, n0.2) else 0) + (if n1.1 == c then wt(x, n1.2) else 0) + (if n2.1 == c then wt(x, n2.2) else 0)
  {
    assert [n0, n1, n2][..2] == [n0, n1] && [n0, n1][..1] == [n0] && [n0][..0] == [];
    assert Votes([n0], c, x, wt) == Votes([], c, x, wt) + (if n0.1 == c then wt(x, n0.2) else 0);
    assert Votes([n0, n1], c, x, wt) == Votes([n0], c, x, wt) + (if n1.1 == c then wt(x, n1.2) else 0);
    assert Votes([n0, n1, n2], c, x, wt) == Votes([n0, n1], c, x, wt) + (if n2.1 == c then wt(x, n2.2) else 0);
  }

  lemma ExampleVoters()
    ensures VotersInData(ExampleData, ExampleSorted[..3])
  {
    assert ExampleData[2].0 == "b" && ExampleData[4].0 == "c";
  }

  lemma ExampleCounts()
    ensures var near := ExampleSorted[..3];
      && Votes(near, "a", Vector([8]), EqWeight) == 0
      && Votes(near, "b", Vector([8]), EqWeight) == 2
      && Votes(near, "c", Vector([8]), EqWeight) == 1
  {
    ExampleNamesDiffer();
    var near := ExampleSorted[..3];
    assert near == [near[0], near[1], near[2]];
    Votes3(near[0], near[1], near[2], "a", Vector([8]), EqWeight);
    Votes3(near[0], near[1], near[2], "b", Vector([8]), EqWeight);
    Votes3(near[0], near[1], near[2], "c", Vector([8]), EqWeight);
  }

  /** Three categories in key order with their votes give these pairs before the sort. */
  lemma ItemsOfThree(data: seq<Sample>, near: seq<Neighbour>, x: Query, wt: (Query, Vec) -> int, a: int, b: int, c: int)
    requires VotersInData(data, near)
    requires ZeroWeights(data).keys == ["a", "b", "c"]
    requires Votes(near, "a", x, wt) == a && Votes(near, "b", x, wt) == b && Votes(near, "c", x, wt) == c
    ensures VoteItems(data, near, x, wt) == [(a, "a"), (b, "b"), (c, "c")]
  {
    VoteItemsKeys(data, near, x, wt);
    VoteItemsWeights(data, near, x, wt);
  }

  lemma ExampleItems()
    ensures VotersInData(ExampleData, ExampleSorted[..3])
    ensures VoteItems(ExampleData, ExampleSorted[..3], Vector([8]), EqWeight) == [(0, "a"), (2, "b"), (1, "c")]
  {
    ExampleVoters();
    ExampleZero();
    ExampleCounts();
    ItemsOfThree(ExampleData, ExampleSorted[..3], Vector([8]), EqWeight, 0, 2, 1);
  }

  lemma ExampleVotes()
    ensures SortBy([(0, "a"), (2, "b"), (1, "c")], VoteGe) == [(2, "b"), (1, "c"), (0, "a")]
  {
    var items: seq<Vote> := [(0, "a"), (2, "b"), (1, "c")];
    var votes: seq<Vote> := [(2, "b"), (1, "c"), (0, "a")];
    VoteOrder();
    SortBySorted(items, VoteGe);
    assert multiset(items) == multiset(votes);
    assert SortedBy(votes, VoteGe);
    SortedUnique(SortBy(items, VoteGe), votes, VoteGe);
  }

  /**
   * The `__main__` example: with `k` = 3 and the default weight and
   * distance, the query 8 draws two votes for "b" and one for "c", and
   * classifies as "b".
   */
  lemma WorkedExample()
    ensures CalculateSpec(ExampleData, 3, Vector([8]), EqWeight, VecEuclidean) == Some([(2, "b"), (1, "c"), (0, "a")])
  {
    ExampleNearest();
    ExampleItems();
    ExampleVotes();
  }

  /**
   * The `__main__` example gives the same result whatever order
   * `iteritems()` yields its weights (`ExampleItems`) in, CPython's "a",
   * "c", "b" among them.
   */
  lemma WorkedExampleAnyOrder(items: seq<Vote>)
    requires multiset(items) == multiset([(0, "a"), (2, "b"), (1, "c")])
    ensures SortBy(items, VoteGe) == [(2, "b"), (1, "c"), (0, "a")]
  {
    ExampleNearest();
    ExampleItems();
    WorkedExample();
    CalculateOrderFree(ExampleData, 3, Vector([8]), EqWeight, VecEuclidean, items);
  }
}
