/** Values shared by the three models: samples, layer definitions and small arithmetic helpers. */
module Data {
  import opened Activations

  /** A labelled sample: its coordinates and its class label (0 or 1 in every dataset). */
  datatype DataPoint = DataPoint(inputs: seq<real>, category: nat)

  /** The configuration of one layer: its neuron count and activation kind. */
  datatype LayerDefinition = LayerDefinition(neurons: nat, activation: Activation)

  /** Every point has exactly `n` inputs. */
  predicate Dimensioned(samples: seq<DataPoint>, n: nat) {
    forall i | 0 <= i < |samples| :: |samples[i].inputs| == n
  }

  /** A reordering of the data (the shuffle) has the same length and the same dimensions. */
  lemma ReorderedKeepsDimensions(data: seq<DataPoint>, shuffled: seq<DataPoint>, n: nat)
    requires multiset(shuffled) == multiset(data) && Dimensioned(data, n)
    ensures |shuffled| == |data| && Dimensioned(shuffled, n)
  {
    assert |shuffled| == |multiset(shuffled)| == |data|;
    forall i | 0 <= i < |shuffled| ensures |shuffled[i].inputs| == n {
      assert shuffled[i] in multiset(data);
    }
  }

  /** A value that Math.random can return. */
  type Unit = r: real | 0.0 <= r < 1.0

  /** The stream of random numbers: the n-th call of Math.random returns Noise(n). */
  type Noise = nat -> Unit

  /**
   * The left fold `a.reduce((acc, v, i) => acc + v * b[i], 0)`: the products of
   * the entries of `a` with the entries of `b` at the same positions, summed in
   * order. Only the first |a| entries of `b` are read.
   */
  function Dot(a: seq<real>, b: seq<real>): real
    requires |a| <= |b|
  {
    if |a| == 0 then 0.0 else Dot(a[..|a| - 1], b) + a[|a| - 1] * b[|a| - 1]
  }

  /** Entries of `b` past the length of `a` do not matter to Dot. */
  lemma {:induction false} DotPrefix(a: seq<real>, b: seq<real>, c: seq<real>)
    requires |a| <= |b| && |a| <= |c|
    requires b[..|a|] == c[..|a|]
    ensures Dot(a, b) == Dot(a, c)
  {
    if |a| > 0 {
      var a' := a[..|a| - 1];
      assert b[..|a'|] == b[..|a|][..|a'|];
      assert c[..|a'|] == c[..|a|][..|a'|];
      DotPrefix(a', b, c);
      assert b[|a| - 1] == b[..|a|][|a| - 1];
      assert c[|a| - 1] == c[..|a|][|a| - 1];
    }
  }

  /** The square of an error or of a coordinate difference. */
  function Squared(e: real): (r: real)
    ensures r >= 0.0
  {
    e * e
  }

  /** `count / n` as the accuracy helpers compute it, 0 when there is nothing to count. */
  function Fraction(count: nat, n: nat): (r: real)
    requires count <= n
    ensures 0.0 <= r <= 1.0
    ensures n == 0 ==> r == 0.0
    ensures n > 0 ==> r * (n as real) == count as real
    ensures n > 0 && r == 1.0 ==> count == n
  {
    if n == 0 then 0.0 else count as real / n as real
  }

  /** The mean of `n` values whose sum is `total`. */
  function Mean(total: real, n: nat): (m: real)
    requires n > 0
    ensures m * (n as real) == total
    ensures total >= 0.0 ==> m >= 0.0
  {
    total / n as real
  }
}
