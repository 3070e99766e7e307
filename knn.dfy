/**
 * The k-nearest-neighbours classifier: it stores the training points, and it
 * predicts the class of a query by a majority vote among the k stored points
 * nearest to it. The pipeline of its prediction (distances, stable sort, the
 * first k, the vote table, the most voted label) is a chain of pure functions;
 * the class only holds k and the stored points.
 */
module Knn {
  import opened Data

  // ---------------------------------------------------------------- distance

  /**
   * The squared Euclidean distance, as the fold
   * `a.reduce((sum, v, i) => sum + (v - b[i]) ** 2, 0)` over the entries of `a`.
   * The classifier only compares distances, and the square root it takes of
   * this sum does not change their order.
   */
  function SquaredDistance(a: seq<real>, b: seq<real>): (d: real)
    requires |a| <= |b|
    ensures d >= 0.0
  {
    if |a| == 0 then 0.0
    else
      var i := |a| - 1;
      SquaredDistance(a[..i], b) + Squared(a[i] - b[i])
  }

  /** A square is 0 at 0 and positive everywhere else. */
  lemma SquaredZero(x: real)
    ensures Squared(x) == 0.0 <==> x == 0.0
  {
    if x != 0.0 {
      calc {
        Squared(x);
      ==
        x * x;
      >
        0.0;
      }
    }
  }

  /** The distance is 0 exactly when `b` starts with the entries of `a`. */
  lemma {:induction false} DistanceZero(a: seq<real>, b: seq<real>)
    requires |a| <= |b|
    ensures SquaredDistance(a, b) == 0.0 <==> a == b[..|a|]
  {
    if |a| > 0 {
      var i := |a| - 1;
      DistanceZero(a[..i], b);
      SquaredZero(a[i] - b[i]);
      assert b[..|a|][..i] == b[..i];
      if a == b[..|a|] {
        assert a[..i] == b[..i];
      }
      if SquaredDistance(a, b) == 0.0 {
        assert a[..i] == b[..i] && a[i] == b[i];
        assert a == a[..i] + [a[i]];
        assert b[..|a|] == b[..i] + [b[i]];
      }
    }
  }

  /** Every stored point has at least as many coordinates as the query, so that its distance is defined. */
  predicate Reaches(query: seq<real>, data: seq<DataPoint>) {
    forall i | 0 <= i < |data| :: |query| <= |data[i].inputs|
  }

  /** The distance from the query to each stored point, in data order (the `map` of the prediction). */
  function Distances(query: seq<real>, data: seq<DataPoint>): (ds: seq<real>)
    requires Reaches(query, data)
    ensures |ds| == |data|
  {
    seq(|data|, i requires 0 <= i < |data| => SquaredDistance(query, data[i].inputs))
  }

  // ----------------------------------------------------------------- ranking

  /**
   * Position a precedes position b after the stable ascending sort of the
   * distances `ds`: a is nearer, or as near and earlier in the data.
   */
  predicate Before(ds: seq<real>, a: nat, b: nat)
    requires a < |ds| && b < |ds|
  {
    ds[a] < ds[b] || (ds[a] == ds[b] && a < b)
  }

  /** Every entry of `r` is a position of `ds`. */
  predicate Positions(ds: seq<real>, r: seq<nat>) {
    forall i | 0 <= i < |r| :: r[i] < |ds|
  }

  /** The positions in `r` appear in the order of the stable sort, each once. */
  predicate Ordered(ds: seq<real>, r: seq<nat>)
    requires Positions(ds, r)
  {
    forall i, j | 0 <= i < j < |r| :: Before(ds, r[i], r[j])
  }

  /** Positions 0, 1, ..., n-1: the data before it is sorted. */
  function Range(n: nat): (r: seq<nat>)
    ensures |r| == n && forall i | 0 <= i < n :: r[i] == i
  {
    seq(n, i requires 0 <= i < n => i as nat)
  }

  /** `x` inserted into `r` in front of the first position it precedes. */
  function Insert(ds: seq<real>, x: nat, r: seq<nat>): (r': seq<nat>)
    requires x < |ds| && Positions(ds, r)
    ensures Positions(ds, r') && multiset(r') == multiset(r) + multiset{x}
  {
    if |r| == 0 then [x]
    else if Before(ds, x, r[0]) then [x] + r
    else
      assert r == [r[0]] + r[1..];
      [r[0]] + Insert(ds, x, r[1..])
  }

  lemma {:induction false} InsertOrdered(ds: seq<real>, x: nat, r: seq<nat>)
    requires x < |ds| && Positions(ds, r) && Ordered(ds, r) && x !in r
    ensures Ordered(ds, Insert(ds, x, r))
  {
    if |r| > 0 && !Before(ds, x, r[0]) {
      var rest := r[1..];
      assert Ordered(ds, rest) by {
        forall i, j | 0 <= i < j < |rest| ensures Before(ds, rest[i], rest[j]) {
          assert rest[i] == r[i + 1] && rest[j] == r[j + 1];
        }
      }
      InsertOrdered(ds, x, rest);
      var ins := Insert(ds, x, rest);
      forall j | 0 <= j < |ins| ensures Before(ds, r[0], ins[j]) {
        assert ins[j] in multiset(ins);
        if ins[j] != x {
          assert ins[j] in multiset(rest);
          var m :| 0 <= m < |rest| && rest[m] == ins[j];
          assert r[m + 1] == ins[j];
        }
      }
    }
  }

  /** Insertion sort of the positions in `r` by the order Before. */
  function Sort(ds: seq<real>, r: seq<nat>): (s: seq<nat>)
    requires Positions(ds, r)
    ensures Positions(ds, s) && multiset(s) == multiset(r)
  {
    if |r| == 0 then []
    else
      assert r == [r[0]] + r[1..];
      Insert(ds, r[0], Sort(ds, r[1..]))
  }

  lemma {:induction false} SortOrdered(ds: seq<real>, r: seq<nat>)
    requires Positions(ds, r)
    requires forall i, j | 0 <= i < j < |r| :: r[i] != r[j]
    ensures Ordered(ds, Sort(ds, r))
  {
    if |r| > 0 {
      var rest := r[1..];
      assert forall i, j | 0 <= i < j < |rest| :: rest[i] != rest[j] by {
        forall i, j | 0 <= i < j < |rest| ensures rest[i] != rest[j] {
          assert rest[i] == r[i + 1] && rest[j] == r[j + 1];
        }
      }
      SortOrdered(ds, rest);
      assert r[0] !in rest by {
        forall m | 0 <= m < |rest| ensures rest[m] != r[0] {
          assert rest[m] == r[m + 1];
        }
      }
      assert r[0] !in multiset(Sort(ds, rest));
      InsertOrdered(ds, r[0], Sort(ds, rest));
    }
  }

  /**
   * The positions of the stored points after the stable ascending sort of
   * their distances: every position exactly once, nearest first, ties in
   * data order.
   */
  function Ranked(ds: seq<real>): (r: seq<nat>)
    ensures Positions(ds, r) && |r| == |ds|
    ensures multiset(r) == multiset(Range(|ds|))
    ensures Ordered(ds, r)
  {
    var r := Sort(ds, Range(|ds|));
    SortOrdered(ds, Range(|ds|));
    assert |r| == |multiset(r)| == |multiset(Range(|ds|))| == |ds|;
    r
  }

  /** Every position of `ds` occurs in its ranking. */
  lemma RankedHasAll(ds: seq<real>, p: nat)
    requires p < |ds|
    ensures exists j :: 0 <= j < |ds| && Ranked(ds)[j] == p
  {
    var range := Range(|ds|);
    assert range[p] == p;
    assert p in multiset(Ranked(ds));
    var j :| 0 <= j < |Ranked(ds)| && Ranked(ds)[j] == p;
  }

  function Min(a: nat, b: nat): nat {
    if a <= b then a else b
  }

  /**
   * The positions of the min(k, n) nearest points (the slice of the sorted
   * distances): nearest first, and every point left out is farther than every
   * point taken, or as far and later in the data.
   */
  function Nearest(ds: seq<real>, k: nat): (near: seq<nat>)
    ensures |near| == Min(k, |ds|)
    ensures Positions(ds, near) && Ordered(ds, near)
    ensures forall i, p | 0 <= i < |near| && 0 <= p < |ds| && p !in near :: Before(ds, near[i], p)
  {
    var r := Ranked(ds);
    var near := r[..Min(k, |ds|)];
    assert Ordered(ds, near) by {
      forall i, j | 0 <= i < j < |near| ensures Before(ds, near[i], near[j]) {
        assert near[i] == r[i] && near[j] == r[j];
      }
    }
    assert forall i, p | 0 <= i < |near| && 0 <= p < |ds| && p !in near :: Before(ds, near[i], p) by {
      forall i, p | 0 <= i < |near| && 0 <= p < |ds| && p !in near ensures Before(ds, near[i], p) {
        RankedHasAll(ds, p);
        var j :| 0 <= j < |ds| && r[j] == p;
        assert forall m | 0 <= m < |near| :: r[m] != p by {
          forall m | 0 <= m < |near| ensures r[m] != p {
            assert near[m] == r[m];
          }
        }
        assert near[i] == r[i];
      }
    }
    near
  }

  // ------------------------------------------------------------------ voting

  /** How many entries of `labels` equal `l`. */
  function Count(labels: seq<nat>, l: nat): (n: nat)
    ensures n <= |labels|
    ensures n > 0 <==> l in labels
  {
    if |labels| == 0 then 0
    else
      assert labels == labels[..|labels| - 1] + [labels[|labels| - 1]];
      Count(labels[..|labels| - 1], l) + if labels[|labels| - 1] == l then 1 else 0
  }

  /**
   * The vote table built by the reduce over the neighbours' labels: each label
   * that occurs, with the number of neighbours that carry it.
   */
  function Votes(labels: seq<nat>): (v: map<nat, nat>)
    ensures forall l :: l in v <==> l in labels
    ensures forall l | l in v :: v[l] == Count(labels, l)
  {
    if |labels| == 0 then map[]
    else
      var init := labels[..|labels| - 1];
      var l := labels[|labels| - 1];
      var v := Votes(init);
      assert labels == init + [l];
      v[l := (if l in v then v[l] else 0) + 1]
  }

  /** One more than the largest label (0 for none). */
  function Ceiling(labels: seq<nat>): (c: nat)
    ensures forall l | l in labels :: l < c
  {
    if |labels| == 0 then 0
    else
      var c := Ceiling(labels[..|labels| - 1]);
      var l := labels[|labels| - 1];
      assert labels == labels[..|labels| - 1] + [l];
      if l < c then c else l + 1
  }

  /** The keys of `v` below `n`, in ascending order: how Object.entries lists integer keys. */
  function KeysBelow(v: map<nat, nat>, n: nat): (ks: seq<nat>)
    ensures forall l :: l in ks <==> l in v && l < n
    ensures forall i | 0 <= i < |ks| :: ks[i] < n
    ensures forall i, j | 0 <= i < j < |ks| :: ks[i] < ks[j]
  {
    if n == 0 then []
    else KeysBelow(v, n - 1) + if n - 1 in v then [n - 1] else []
  }

  /**
   * The head of the entries `ks` after a stable sort by descending votes: the
   * first key with the most votes.
   */
  function Leader(v: map<nat, nat>, ks: seq<nat>): (l: nat)
    requires |ks| > 0 && forall i | 0 <= i < |ks| :: ks[i] in v
    ensures l in ks
  {
    if |ks| == 1 then ks[0]
    else
      var b := Leader(v, ks[1..]);
      if v[ks[0]] >= v[b] then ks[0] else b
  }

  /** No key has more votes than the leader, and among the keys with as many, the leader comes first. */
  lemma {:induction false} LeaderIsFirstMost(v: map<nat, nat>, ks: seq<nat>)
    requires |ks| > 0 && forall i | 0 <= i < |ks| :: ks[i] in v
    requires forall i, j | 0 <= i < j < |ks| :: ks[i] < ks[j]
    ensures forall i | 0 <= i < |ks| :: v[ks[i]] <= v[Leader(v, ks)]
    ensures forall i | 0 <= i < |ks| && v[ks[i]] == v[Leader(v, ks)] :: Leader(v, ks) <= ks[i]
  {
    if |ks| > 1 {
      var rest := ks[1..];
      LeaderIsFirstMost(v, rest);
      var b := Leader(v, rest);
      assert b in rest;
      forall i | 0 <= i < |ks| ensures v[ks[i]] <= v[Leader(v, ks)] {
        if i > 0 {
          assert ks[i] == rest[i - 1];
        }
      }
      forall i | 0 <= i < |ks| && v[ks[i]] == v[Leader(v, ks)] ensures Leader(v, ks) <= ks[i] {
        if i > 0 {
          assert ks[i] == rest[i - 1];
        }
      }
    }
  }

  /**
   * The label the neighbours vote for: the label with the most votes, the
   * smallest one when several tie.
   */
  function Winner(labels: seq<nat>): (guess: nat)
    requires |labels| > 0
    ensures guess in labels
  {
    var v := Votes(labels);
    var ks := KeysBelow(v, Ceiling(labels));
    assert labels[0] in labels;
    assert labels[0] in v;
    assert labels[0] in ks;
    Leader(v, ks)
  }

  /**
   * The winner is one of the labels voted for, no label has more votes, and no
   * smaller label has as many.
   */
  lemma WinnerIsMostVoted(labels: seq<nat>)
    requires |labels| > 0
    ensures Winner(labels) in labels
    ensures forall l | l in labels :: Count(labels, l) <= Count(labels, Winner(labels))
    ensures forall l | l in labels && Count(labels, l) == Count(labels, Winner(labels)) :: Winner(labels) <= l
  {
    var v := Votes(labels);
    var ks := KeysBelow(v, Ceiling(labels));
    assert labels[0] in ks;
    LeaderIsFirstMost(v, ks);
    forall l | l in labels ensures Count(labels, l) <= Count(labels, Winner(labels))
      && (Count(labels, l) == Count(labels, Winner(labels)) ==> Winner(labels) <= l)
    {
      var i :| 0 <= i < |ks| && ks[i] == l;
    }
  }

  /** The labels of the stored points at positions `near`, in that order. */
  function LabelsAt(data: seq<DataPoint>, near: seq<nat>): (labels: seq<nat>)
    requires forall i | 0 <= i < |near| :: near[i] < |data|
    ensures |labels| == |near|
  {
    seq(|near|, i requires 0 <= i < |near| => data[near[i]].category)
  }

  /** The numbers of neighbours the classifier may use: at least one. */
  type NeighbourCount = n: nat | 1 <= n witness 1

  /**
   * The prediction for `query` from the stored points `data` with k
   * neighbours: 0 when nothing is stored, otherwise the winner of the vote
   * among the labels of the k nearest points.
   */
  function Classify(data: seq<DataPoint>, k: NeighbourCount, query: seq<real>): (guess: nat)
    requires Reaches(query, data)
  {
    if |data| == 0 then 0
    else
      var near := Nearest(Distances(query, data), k);
      Winner(LabelsAt(data, near))
  }

  /**
   * With stored points, the prediction is the label of one of the nearest
   * points, and it has the most votes among them.
   */
  lemma ClassifyVotes(data: seq<DataPoint>, k: NeighbourCount, query: seq<real>)
    requires Reaches(query, data) && |data| > 0
    ensures var labels := LabelsAt(data, Nearest(Distances(query, data), k));
            && Classify(data, k, query) in labels
            && (forall l | l in labels :: Count(labels, l) <= Count(labels, Classify(data, k, query)))
            && (forall l | l in labels && Count(labels, l) == Count(labels, Classify(data, k, query)) ::
                  Classify(data, k, query) <= l)
  {
    WinnerIsMostVoted(LabelsAt(data, Nearest(Distances(query, data), k)));
  }

  /** The single nearest point is the first one at the smallest possible distance, 0. */
  lemma NearestAtZero(ds: seq<real>, p: nat)
    requires p < |ds| && ds[p] == 0.0
    requires forall i | 0 <= i < |ds| :: ds[i] >= 0.0
    requires forall i | 0 <= i < p :: ds[i] != 0.0
    ensures Nearest(ds, 1) == [p]
  {
    var near := Nearest(ds, 1);
    assert |near| == 1;
    assert !Before(ds, near[0], p);
    assert p in near;
    assert near == [near[0]];
  }

  /**
   * With one neighbour, the prediction is the label of the first stored point
   * at distance 0 from the query (a stored point whose inputs are the query,
   * by DistanceZero).
   */
  lemma FirstExactMatch(data: seq<DataPoint>, query: seq<real>, p: nat)
    requires Reaches(query, data) && p < |data|
    requires SquaredDistance(query, data[p].inputs) == 0.0
    requires forall i | 0 <= i < p :: SquaredDistance(query, data[i].inputs) != 0.0
    ensures Classify(data, 1, query) == data[p].category
  {
    var ds := Distances(query, data);
    NearestAtZero(ds, p);
    var labels := LabelsAt(data, [p]);
    assert labels == [data[p].category];
    WinnerIsMostVoted(labels);
  }

  // ------------------------------------------------------------------ the class

  /** The classifier over `data` with k neighbours labels the test point `t` right. */
  predicate Correct(data: seq<DataPoint>, k: NeighbourCount, t: DataPoint)
    requires Reaches(t.inputs, data)
  {
    Classify(data, k, t.inputs) == t.category
  }

  /** How many of the test points `tests` the classifier over `data` with k neighbours labels right. */
  function Hits(data: seq<DataPoint>, k: NeighbourCount, tests: seq<DataPoint>): (n: nat)
    requires forall i | 0 <= i < |tests| :: Reaches(tests[i].inputs, data)
    ensures n <= |tests|
  {
    if |tests| == 0 then 0
    else
      var last := tests[|tests| - 1];
      Hits(data, k, tests[..|tests| - 1]) + if Correct(data, k, last) then 1 else 0
  }

  /** Every test point is labelled right exactly when the count of hits is the number of test points. */
  lemma AllHits(data: seq<DataPoint>, k: NeighbourCount, tests: seq<DataPoint>)
    requires forall i | 0 <= i < |tests| :: Reaches(tests[i].inputs, data)
    ensures Hits(data, k, tests) == |tests| <==> forall i | 0 <= i < |tests| :: Correct(data, k, tests[i])
  {
    if Hits(data, k, tests) == |tests| {
      FullHitsAllCorrect(data, k, tests);
    }
    if forall i | 0 <= i < |tests| :: Correct(data, k, tests[i]) {
      AllCorrectFullHits(data, k, tests);
    }
  }

  lemma {:induction false} FullHitsAllCorrect(data: seq<DataPoint>, k: NeighbourCount, tests: seq<DataPoint>)
    requires forall i | 0 <= i < |tests| :: Reaches(tests[i].inputs, data)
    requires Hits(data, k, tests) == |tests|
    ensures forall i | 0 <= i < |tests| :: Correct(data, k, tests[i])
  {
    if |tests| > 0 {
      var n := |tests| - 1;
      var init := tests[..n];
      assert Hits(data, k, tests) == Hits(data, k, init) + if Correct(data, k, tests[n]) then 1 else 0;
      FullHitsAllCorrect(data, k, init);
      forall i | 0 <= i < n ensures Correct(data, k, tests[i]) {
        assert init[i] == tests[i];
      }
    }
  }

  lemma {:induction false} AllCorrectFullHits(data: seq<DataPoint>, k: NeighbourCount, tests: seq<DataPoint>)
    requires forall i | 0 <= i < |tests| :: Reaches(tests[i].inputs, data)
    requires forall i | 0 <= i < |tests| :: Correct(data, k, tests[i])
    ensures Hits(data, k, tests) == |tests|
  {
    if |tests| > 0 {
      var n := |tests| - 1;
      var init := tests[..n];
      forall i | 0 <= i < n ensures Correct(data, k, init[i]) {
        assert init[i] == tests[i];
      }
      AllCorrectFullHits(data, k, init);
      assert Hits(data, k, tests) == Hits(data, k, init) + if Correct(data, k, tests[n]) then 1 else 0;
    }
  }

  class KNN {
    const k: NeighbourCount
    /** The stored training points. */
    var data: seq<DataPoint>

    /** A classifier with max(1, k) neighbours and no stored points. */
    constructor (k: int)
      ensures this.k == if k < 1 then 1 else k
      ensures data == []
    {
      this.k := if k < 1 then 1 else k;
      data := [];
    }

    /** "Training": the points are stored, and nothing else changes. */
    method Fit(data: seq<DataPoint>)
      modifies this
      ensures this.data == data
    {
      this.data := data;
    }

    /**
     * The class of `inputs`: 0 with no stored points, otherwise a label of one
     * of the k nearest stored points that has the most votes among them.
     */
    function Predict(inputs: seq<real>): (guess: nat)
      requires Reaches(inputs, data)
      reads this
      ensures |data| == 0 ==> guess == 0
      ensures |data| > 0 ==>
                var labels := LabelsAt(data, Nearest(Distances(inputs, data), k));
                && guess in labels
                && forall l | l in labels :: Count(labels, l) <= Count(labels, guess)
    {
      if |data| == 0 then 0
      else
        ClassifyVotes(data, k, inputs);
        Classify(data, k, inputs)
    }

    /** The share of `testData` predicted right, 0 for no test data. */
    method GetAccuracy(testData: seq<DataPoint>) returns (accuracy: real)
      requires forall i | 0 <= i < |testData| :: Reaches(testData[i].inputs, data)
      ensures accuracy == Fraction(Hits(data, k, testData), |testData|)
      ensures 0.0 <= accuracy <= 1.0 && (testData == [] ==> accuracy == 0.0)
    {
      if |testData| == 0 {
        return 0.0;
      }
      var correct := 0;
      for i := 0 to |testData|
        invariant correct == Hits(data, k, testData[..i])
      {
        assert testData[..i + 1][..i] == testData[..i];
        if Predict(testData[i].inputs) == testData[i].category {
          correct := correct + 1;
        }
      }
      assert testData[..|testData|] == testData;
      accuracy := Fraction(correct, |testData|);
    }
  }
}
