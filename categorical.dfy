/** Categorical nodes (`bayespy/inference/vmp/nodes/categorical.py`): the
    validation and one-hot encoding of observed category indices, the
    category count check of the distribution, and the wiring of the
    constructor. */
module Categorical {
  import opened Common
  import opened Shapes
  import opened NdArrays
  import opened Reductions
  import opened Stochastic

  /** A value given to `compute_fixed_moments`: an array of integer dtype, or
      an array of any other dtype (which `utils.isinteger` rejects). */
  datatype Values = IntArray(a: Array<int>) | NonIntArray

  /** The object given to `CategoricalDistribution` as the number of
      categories: a Python `int`, or anything else. */
  datatype Count = IntCount(n: int) | NonIntCount

  /** The moments object of a categorical variable; its category count comes
      from the dimensions of the parent's moments. */
  datatype CategoricalMoments = CategoricalMoments(d: nat)

  /** The distribution object of a categorical variable. */
  datatype CategoricalDistribution = CategoricalDistribution(d: nat)

  predicate Negative(v: int) {
    v < 0
  }

  function AtLeast(d: nat): int -> bool {
    v => v >= d
  }

  /** `np.any(x < 0) or np.any(x >= D)`. */
  predicate OutOfRange(x: Tensor<int>, d: nat) {
    AnyTrue(Map(Negative, x)) || AnyTrue(Map(AtLeast(d), x))
  }

  /** The last-axis row for category `v`: 1 at index `v`, 0 elsewhere. */
  function OneHotRow(v: int, d: nat): Tensor<real> {
    Stack(seq(d, k requires 0 <= k < d => Scalar(if k == v then 1.0 else 0.0)))
  }

  /** The zero matrix with a 1 at `[i, x[i]]`, reshaped to `shape(x) + (D,)`:
      each element of `x` becomes its one-hot row. */
  function OneHot(x: Tensor<int>, d: nat): Tensor<real>
    decreases x
  {
    match x
    case Scalar(v) => OneHotRow(v, d)
    case Stack(items) => Stack(seq(|items|, i requires 0 <= i < |items| => OneHot(items[i], d)))
  }

  lemma {:induction false} OneHotShape(x: Tensor<int>, shape: seq<nat>, d: nat)
    requires HasShape(x, shape)
    ensures HasShape(OneHot(x, d), shape + [d])
    decreases |shape|
  {
    if shape != [] {
      assert (shape + [d])[1..] == shape[1..] + [d];
      forall i | 0 <= i < |x.items| ensures HasShape(OneHot(x, d).items[i], shape[1..] + [d]) {
        OneHotShape(x.items[i], shape[1..], d);
      }
    }
  }

  /** Element `[idx, k]` of the encoding is 1 exactly when `k` is the
      category at `idx`. */
  lemma {:induction false} OneHotAt(x: Tensor<int>, shape: seq<nat>, d: nat, idx: seq<nat>, k: nat)
    requires HasShape(x, shape) && InBounds(idx, shape) && k < d
    ensures HasShape(OneHot(x, d), shape + [d]) && InBounds(idx + [k], shape + [d])
    ensures At(OneHot(x, d), shape + [d], idx + [k]) == if k == At(x, shape, idx) then 1.0 else 0.0
    decreases |shape|
  {
    OneHotShape(x, shape, d);
    if shape != [] {
      assert (shape + [d])[1..] == shape[1..] + [d];
      assert (idx + [k])[1..] == idx[1..] + [k];
      OneHotAt(x.items[idx[0]], shape[1..], d, idx[1..], k);
    }
  }

  /** `compute_fixed_moments(x)`: `ValueError` for a non-integer array or an
      index outside `[0, D)` (so every non-empty array when `D == 0`);
      otherwise the single moment, the one-hot encoding of shape
      `shape(x) + (D,)`. */
  function ComputeFixedMoments(x: Values, d: nat): (r: Result<seq<Array<real>>>)
    requires x.IntArray? ==> x.a.Valid()
    ensures r.Err? <==>
      x.NonIntArray? || exists idx :: InBounds(idx, x.a.shape) && !(0 <= At(x.a.elems, x.a.shape, idx) < d)
    ensures r.Err? ==> r.error == ValueError
    ensures r.Ok? ==> |r.value| == 1 && r.value[0].Valid() && r.value[0].shape == x.a.shape + [d]
  {
    if x.NonIntArray? then Err(ValueError)
    else
      AnyMapAt(Negative, x.a.elems, x.a.shape);
      AnyMapAt(AtLeast(d), x.a.elems, x.a.shape);
      if OutOfRange(x.a.elems, d) then Err(ValueError)
      else
        OneHotShape(x.a.elems, x.a.shape, d);
        Ok([Array(x.a.shape + [d], OneHot(x.a.elems, d))])
  }

  /** `compute_dims_from_values(x)`: one moment, of dimension `(D,)`,
      whatever `x` is. */
  function ComputeDimsFromValues(m: CategoricalMoments, x: Values): (r: seq<seq<nat>>)
    ensures r == [[m.d]]
  {
    [[m.d]]
  }

  /** The dimensions agree with the moments: every accepted value's moment
      has the value's shape followed by the dimension. */
  lemma DimsMatchMoments(m: CategoricalMoments, x: Values)
    requires x.IntArray? ==> x.a.Valid()
    requires ComputeFixedMoments(x, m.d).Ok?
    ensures ComputeFixedMoments(x, m.d).value[0].shape == x.a.shape + ComputeDimsFromValues(m, x)[0]
  {
  }

  /** Element `[idx, k]` of the moment is 1 when `k == x[idx]` and 0
      otherwise. */
  lemma FixedMomentsAt(x: Values, d: nat, idx: seq<nat>, k: nat)
    requires x.IntArray? ==> x.a.Valid()
    requires ComputeFixedMoments(x, d).Ok? && InBounds(idx, x.a.shape) && k < d
    ensures InBounds(idx + [k], ComputeFixedMoments(x, d).value[0].shape)
    ensures At(ComputeFixedMoments(x, d).value[0].elems, ComputeFixedMoments(x, d).value[0].shape, idx + [k]) ==
            if k == At(x.a.elems, x.a.shape, idx) then 1.0 else 0.0
  {
    OneHotAt(x.a.elems, x.a.shape, d, idx, k);
  }

  // ---- Each row sums to one ----

  /** Every sub-array at depth `rank` (every last-axis row, for a tensor of
      rank `rank + 1`) sums to 1. */
  predicate RowsSumToOne(t: Tensor<real>, rank: nat)
    decreases rank
  {
    if rank == 0 then Total(t) == 1.0
    else t.Stack? && forall i :: 0 <= i < |t.items| ==> RowsSumToOne(t.items[i], rank - 1)
  }

  /** Summing the indicator of `v` over `lo .. lo + n - 1` gives 1 when `v`
      is in that range and 0 otherwise. */
  lemma {:induction false} SumIndicator(n: nat, lo: int, v: int)
    ensures SumSeq(seq(n, k requires 0 <= k < n => if k + lo == v then 1.0 else 0.0)) ==
            if lo <= v < lo + n then 1.0 else 0.0
    decreases n
  {
    var s := seq(n, k requires 0 <= k < n => if k + lo == v then 1.0 else 0.0);
    if n > 0 {
      SumIndicator(n - 1, lo + 1, v);
      assert s[1..] == seq(n - 1, k requires 0 <= k < n - 1 => if k + (lo + 1) == v then 1.0 else 0.0);
    }
  }

  lemma OneHotRowTotal(v: int, d: nat)
    requires 0 <= v < d
    ensures Total(OneHotRow(v, d)) == 1.0
  {
    var row := OneHotRow(v, d);
    assert Totals(row.items) == seq(d, k requires 0 <= k < d => if k + 0 == v then 1.0 else 0.0);
    TotalStack(row);
    SumIndicator(d, 0, v);
  }

  lemma {:induction false} OneHotRows(x: Tensor<int>, shape: seq<nat>, d: nat)
    requires HasShape(x, shape) && !OutOfRange(x, d)
    ensures RowsSumToOne(OneHot(x, d), |shape|)
    decreases |shape|
  {
    if shape == [] {
      assert !Negative(x.value) && !AtLeast(d)(x.value);
      OneHotRowTotal(x.value, d);
    } else {
      forall i | 0 <= i < |x.items| ensures RowsSumToOne(OneHot(x, d).items[i], |shape| - 1) {
        assert Map(Negative, x).items[i] == Map(Negative, x.items[i]);
        assert Map(AtLeast(d), x).items[i] == Map(AtLeast(d), x.items[i]);
        OneHotRows(x.items[i], shape[1..], d);
      }
    }
  }

  /** `np.sum(u0, axis=-1)` is 1 everywhere: each row has exactly one 1. */
  lemma FixedMomentsRowsSumToOne(x: Values, d: nat)
    requires x.IntArray? ==> x.a.Valid()
    requires ComputeFixedMoments(x, d).Ok?
    ensures RowsSumToOne(ComputeFixedMoments(x, d).value[0].elems, |x.a.shape|)
  {
    OneHotRows(x.a.elems, x.a.shape, d);
  }

  // ---- Decoding: the encoding loses nothing ----

  /** The position of the first 1 in a row (`|row|` when there is none). */
  function FirstOne(row: seq<Tensor<real>>): (r: nat)
    ensures r <= |row|
  {
    if row == [] then 0
    else if row[0] == Scalar(1.0) then 0
    else 1 + FirstOne(row[1..])
  }

  lemma {:induction false} FirstOneIs(row: seq<Tensor<real>>, v: nat)
    requires v < |row| && row[v] == Scalar(1.0)
    requires forall k :: 0 <= k < v ==> row[k] != Scalar(1.0)
    ensures FirstOne(row) == v
    decreases v
  {
    if v > 0 {
      FirstOneIs(row[1..], v - 1);
    }
  }

  /** The category indices a moment array of rank `rank + 1` encodes: the
      position of the 1 in each last-axis row. */
  function Decode(u: Tensor<real>, rank: nat): Tensor<int>
    decreases rank
  {
    if !u.Stack? then Scalar(0)
    else if rank == 0 then Scalar(FirstOne(u.items))
    else Stack(seq(|u.items|, i requires 0 <= i < |u.items| => Decode(u.items[i], rank - 1)))
  }

  lemma {:induction false} DecodeOneHot(x: Tensor<int>, shape: seq<nat>, d: nat)
    requires HasShape(x, shape) && !OutOfRange(x, d)
    ensures Decode(OneHot(x, d), |shape|) == x
    decreases |shape|
  {
    if shape == [] {
      assert !Negative(x.value) && !AtLeast(d)(x.value);
      FirstOneIs(OneHotRow(x.value, d).items, x.value);
    } else {
      var y := Decode(OneHot(x, d), |shape|);
      forall i | 0 <= i < |x.items| ensures y.items[i] == x.items[i] {
        assert Map(Negative, x).items[i] == Map(Negative, x.items[i]);
        assert Map(AtLeast(d), x).items[i] == Map(AtLeast(d), x.items[i]);
        DecodeOneHot(x.items[i], shape[1..], d);
      }
    }
  }

  /** Round trip: decoding the moment of an accepted value gives back the
      value, so distinct values have distinct moments. */
  lemma DecodeFixedMoments(x: Values, d: nat)
    requires x.IntArray? ==> x.a.Valid()
    requires ComputeFixedMoments(x, d).Ok?
    ensures Decode(ComputeFixedMoments(x, d).value[0].elems, |x.a.shape|) == x.a.elems
  {
    DecodeOneHot(x.a.elems, x.a.shape, d);
  }

  // ---- The distribution ----

  /** `CategoricalDistribution(categories)`: `ValueError` unless the count
      is a non-negative `int`, which is then kept as `D`. */
  function NewDistribution(categories: Count): (r: Result<CategoricalDistribution>)
    ensures r.Ok? <==> categories.IntCount? && categories.n >= 0
    ensures r.Err? ==> r.error == ValueError
    ensures r.Ok? ==> r.value.d == categories.n
  {
    if !categories.IntCount? then Err(ValueError)
    else if categories.n < 0 then Err(ValueError)
    else Ok(CategoricalDistribution(categories.n))
  }

  /** `compute_fixed_moments_and_f(x)`: the same checks and encoding as the
      moments object with the same `D`, and `f(x) = 0`. */
  function ComputeFixedMomentsAndF(dist: CategoricalDistribution, x: Values): (r: Result<(seq<Array<real>>, real)>)
    requires x.IntArray? ==> x.a.Valid()
    ensures r.Ok? ==> r.value.1 == 0.0
  {
    var u :- ComputeFixedMoments(x, dist.d);
    Ok((u, 0.0))
  }

  /** The distribution and the moments object agree on every value. */
  lemma FixedMomentsAgree(dist: CategoricalDistribution, m: CategoricalMoments, x: Values)
    requires x.IntArray? ==> x.a.Valid()
    requires dist.d == m.d
    ensures ComputeFixedMomentsAndF(dist, x).Ok? <==> ComputeFixedMoments(x, m.d).Ok?
    ensures ComputeFixedMomentsAndF(dist, x).Err? ==> ComputeFixedMomentsAndF(dist, x).error == ValueError
    ensures ComputeFixedMomentsAndF(dist, x).Ok? ==>
      ComputeFixedMomentsAndF(dist, x).value == (ComputeFixedMoments(x, m.d).value, 0.0)
  {
  }

  // ---- The constructor ----

  /** What `_constructor` hands to the node: its dimensions, the plates the
      parent gives it, and the moments and distribution objects. */
  datatype Construction = Construction(
    dims: seq<seq<nat>>,
    parentPlates: seq<nat>,
    moments: CategoricalMoments,
    distribution: CategoricalDistribution)

  /** `Categorical._constructor(p)`: `D = p.dims[0][0]` (an `IndexError`
      when the parent has no such dimension), the node's dimensions are
      `((D,),)`, and the moments and distribution objects share that `D`. */
  function Constructor(p: ParentNode): (r: Result<Construction>)
    ensures r.Ok? <==> |p.dims| > 0 && |p.dims[0]| > 0
    ensures r.Err? ==> r.error == IndexError
    ensures r.Ok? ==>
      var c := r.value;
      c.dims == [[p.dims[0][0]]] && c.moments.d == p.dims[0][0] && c.distribution.d == p.dims[0][0] &&
      c.parentPlates == p.plates
  {
    if |p.dims| == 0 || |p.dims[0]| == 0 then Err(IndexError)
    else
      var d := p.dims[0][0];
      Ok(Construction([[d]], DefaultPlatesFromParent(0, p.plates), CategoricalMoments(d), NewDistribution(IntCount(d)).value))
  }

  /** A constructed node is consistent: the moments object's dimensions
      are the node's, and its distribution encodes exactly as its moments
      object. */
  lemma ConstructorConsistent(p: ParentNode, x: Values)
    requires Constructor(p).Ok? && (x.IntArray? ==> x.a.Valid())
    ensures ComputeDimsFromValues(Constructor(p).value.moments, x) == Constructor(p).value.dims
    ensures ComputeFixedMomentsAndF(Constructor(p).value.distribution, x).Ok? <==>
            ComputeFixedMoments(x, Constructor(p).value.moments.d).Ok?
  {
    FixedMomentsAgree(Constructor(p).value.distribution, Constructor(p).value.moments, x);
  }
}
