/** Adding and removing unit axes, and numpy broadcasting of an array to a
    larger shape (the helpers `add_leading_axes`, `add_trailing_axes`,
    `squeeze_to_dim` and `repeat_to_shape` of `bayespy.utils.utils`, which is
    not part of this model: each gets the minimal definition its callers
    rely on). */
module Broadcasting {
  import opened Shapes
  import opened NdArrays

  function Zeros(n: nat): (r: seq<nat>)
    ensures |r| == n && forall i :: 0 <= i < n ==> r[i] == 0
  {
    seq(n, _ => 0)
  }

  /** `add_leading_axes`: `k` new unit axes in front. */
  function AddLeading<T>(x: Tensor<T>, k: nat): Tensor<T>
  {
    if k == 0 then x else Stack([AddLeading(x, k - 1)])
  }

  lemma {:induction false} AddLeadingShape<T>(x: Tensor<T>, shape: seq<nat>, k: nat)
    requires HasShape(x, shape)
    ensures HasShape(AddLeading(x, k), Ones(k) + shape)
  {
    if k > 0 {
      AddLeadingShape(x, shape, k - 1);
      var s := Ones(k) + shape;
      assert s[0] == 1 && s[1..] == Ones(k - 1) + shape;
      assert AddLeading(x, k).items[0] == AddLeading(x, k - 1);
    } else {
      assert Ones(k) + shape == shape;
    }
  }

  lemma {:induction false} AddLeadingAt<T>(x: Tensor<T>, shape: seq<nat>, k: nat, idx: seq<nat>)
    requires HasShape(x, shape) && InBounds(idx, Ones(k) + shape)
    ensures HasShape(AddLeading(x, k), Ones(k) + shape)
    ensures InBounds(idx[k..], shape)
    ensures At(AddLeading(x, k), Ones(k) + shape, idx) == At(x, shape, idx[k..])
  {
    AddLeadingShape(x, shape, k);
    assert forall j :: 0 <= j < |shape| ==> idx[k..][j] == idx[k + j] && (Ones(k) + shape)[k + j] == shape[j];
    if k > 0 {
      var s := Ones(k) + shape;
      assert s[0] == 1 && s[1..] == Ones(k - 1) + shape;
      assert idx[0] == 0 && idx[1..][k - 1..] == idx[k..];
      assert AddLeading(x, k).items[0] == AddLeading(x, k - 1);
      AddLeadingAt(x, shape, k - 1, idx[1..]);
    } else {
      assert Ones(k) + shape == shape && idx[k..] == idx;
    }
  }

  /** `add_trailing_axes`: `k` new unit axes after the last one, so that each
      element becomes a block of shape (1,)*k. */
  function AddTrailing<T>(x: Tensor<T>, k: nat): Tensor<T>
    decreases x
  {
    match x
    case Scalar(_) => AddLeading(x, k)
    case Stack(items) => Stack(seq(|items|, i requires 0 <= i < |items| => AddTrailing(items[i], k)))
  }

  lemma {:induction false} AddTrailingShape<T>(x: Tensor<T>, shape: seq<nat>, k: nat)
    requires HasShape(x, shape)
    ensures HasShape(AddTrailing(x, k), shape + Ones(k))
    decreases |shape|
  {
    if shape == [] {
      AddLeadingShape(x, shape, k);
      assert Ones(k) + shape == shape + Ones(k);
    } else {
      assert (shape + Ones(k))[1..] == shape[1..] + Ones(k);
      forall i | 0 <= i < |x.items|
        ensures HasShape(AddTrailing(x, k).items[i], shape[1..] + Ones(k))
      {
        AddTrailingShape(x.items[i], shape[1..], k);
      }
    }
  }

  /** Every element of the extended array is the element of `x` it was made from. */
  lemma {:induction false} AddTrailingAt<T>(x: Tensor<T>, shape: seq<nat>, k: nat, idx: seq<nat>)
    requires HasShape(x, shape) && InBounds(idx, shape + Ones(k))
    ensures HasShape(AddTrailing(x, k), shape + Ones(k))
    ensures InBounds(idx[..|shape|], shape)
    ensures At(AddTrailing(x, k), shape + Ones(k), idx) == At(x, shape, idx[..|shape|])
    decreases |shape|
  {
    AddTrailingShape(x, shape, k);
    assert forall j :: 0 <= j < |shape| ==> idx[..|shape|][j] == idx[j] && (shape + Ones(k))[j] == shape[j];
    if shape == [] {
      assert Ones(k) + shape == shape + Ones(k);
      AddLeadingAt(x, shape, k, idx);
      assert InBounds(idx[k..], []);
    } else {
      assert (shape + Ones(k))[1..] == shape[1..] + Ones(k);
      assert idx[1..][..|shape| - 1] == idx[..|shape|][1..];
      AddTrailingAt(x.items[idx[0]], shape[1..], k, idx[1..]);
    }
  }

  /** The index of `x` (of shape `xs`) that index `idx` of a broadcast
      target reads: leading target axes are dropped, unit axes read 0. */
  function SourceIndex(idx: seq<nat>, xs: seq<nat>): (r: seq<nat>)
    requires |xs| <= |idx|
    ensures |r| == |xs|
  {
    seq(|xs|, j requires 0 <= j < |xs| => if xs[j] == 1 then 0 else idx[|idx| - |xs| + j])
  }

  /** An index of the array's own shape is its own source index. */
  lemma SourceIndexSame(idx: seq<nat>, xs: seq<nat>)
    requires InBounds(idx, xs)
    ensures SourceIndex(idx, xs) == idx
  {
  }

  /** `repeat_to_shape` / numpy broadcasting: `x` of shape `xs` repeated
      along new leading axes and along its unit axes to fill `target`. */
  function Expand<T>(x: Tensor<T>, xs: seq<nat>, target: seq<nat>): Tensor<T>
    requires HasShape(x, xs) && Compatible(xs, target)
    decreases |target|
  {
    if |xs| < |target| then
      Stack(seq(target[0], _ => Expand(x, xs, target[1..])))
    else if target == [] then x
    else
      Stack(seq(target[0], i requires 0 <= i < target[0] =>
        Expand(x.items[if xs[0] == 1 then 0 else i], xs[1..], target[1..])))
  }

  lemma {:induction false} ExpandShape<T>(x: Tensor<T>, xs: seq<nat>, target: seq<nat>)
    requires HasShape(x, xs) && Compatible(xs, target)
    ensures HasShape(Expand(x, xs, target), target)
    decreases |target|
  {
    if |xs| < |target| {
      ExpandShape(x, xs, target[1..]);
    } else if target != [] {
      forall i | 0 <= i < target[0]
        ensures HasShape(Expand(x, xs, target).items[i], target[1..])
      {
        ExpandShape(x.items[if xs[0] == 1 then 0 else i], xs[1..], target[1..]);
      }
    }
  }

  /** Each element of the broadcast array is the source element at
      `SourceIndex`. */
  lemma {:induction false} ExpandAt<T>(x: Tensor<T>, xs: seq<nat>, target: seq<nat>, idx: seq<nat>)
    requires HasShape(x, xs) && Compatible(xs, target) && InBounds(idx, target)
    ensures HasShape(Expand(x, xs, target), target)
    ensures InBounds(SourceIndex(idx, xs), xs)
    ensures At(Expand(x, xs, target), target, idx) == At(x, xs, SourceIndex(idx, xs))
    decreases |target|
  {
    ExpandShape(x, xs, target);
    SourceInBounds(idx, xs, target);
    if |xs| < |target| {
      ExpandAt(x, xs, target[1..], idx[1..]);
      SourceIndexTail(idx, xs);
    } else if target != [] {
      var i := idx[0];
      ExpandAt(x.items[if xs[0] == 1 then 0 else i], xs[1..], target[1..], idx[1..]);
      SourceIndexStep(idx, xs);
    }
  }

  /** The source index of an index of the target lies in the source shape. */
  lemma SourceInBounds(idx: seq<nat>, xs: seq<nat>, target: seq<nat>)
    requires Compatible(xs, target) && InBounds(idx, target)
    ensures InBounds(SourceIndex(idx, xs), xs)
  {
    var src := SourceIndex(idx, xs);
    forall j | 0 <= j < |xs| ensures src[j] < xs[j] {
      assert idx[|idx| - |xs| + j] < target[|target| - |xs| + j];
    }
  }

  /** A leading target axis that the source lacks does not change the
      source index. */
  lemma SourceIndexTail(idx: seq<nat>, xs: seq<nat>)
    requires |xs| < |idx|
    ensures SourceIndex(idx[1..], xs) == SourceIndex(idx, xs)
  {
  }

  /** On aligned shapes the source index is computed axis by axis. */
  lemma SourceIndexStep(idx: seq<nat>, xs: seq<nat>)
    requires |xs| == |idx| > 0
    ensures SourceIndex(idx[1..], xs[1..]) == SourceIndex(idx, xs)[1..]
  {
  }

  /** Broadcasting an array to its own shape changes nothing. */
  lemma {:induction false} ExpandSame<T>(x: Tensor<T>, xs: seq<nat>)
    requires HasShape(x, xs)
    ensures Compatible(xs, xs) && Expand(x, xs, xs) == x
  {
    ExpandShape(x, xs, xs);
    forall idx | InBounds(idx, xs)
      ensures At(Expand(x, xs, xs), xs, idx) == At(x, xs, idx)
    {
      ExpandAt(x, xs, xs, idx);
      assert SourceIndex(idx, xs) == idx;
    }
    Extensionality(Expand(x, xs, xs), x, xs);
  }

  /** `squeeze_to_dim`: remove the `k` leading axes, each of length 1. */
  function SqueezeLeading<T>(x: Tensor<T>, shape: seq<nat>, k: nat): Tensor<T>
    requires HasShape(x, shape) && k <= |shape|
    requires forall j :: 0 <= j < k ==> shape[j] == 1
    decreases k
  {
    if k == 0 then x else SqueezeLeading(x.items[0], shape[1..], k - 1)
  }

  lemma {:induction false} SqueezeLeadingShape<T>(x: Tensor<T>, shape: seq<nat>, k: nat)
    requires HasShape(x, shape) && k <= |shape|
    requires forall j :: 0 <= j < k ==> shape[j] == 1
    ensures HasShape(SqueezeLeading(x, shape, k), shape[k..])
    decreases k
  {
    if k > 0 {
      assert shape[1..][k - 1..] == shape[k..];
      SqueezeLeadingShape(x.items[0], shape[1..], k - 1);
    }
  }

  lemma {:induction false} SqueezeLeadingAt<T>(x: Tensor<T>, shape: seq<nat>, k: nat, idx: seq<nat>)
    requires HasShape(x, shape) && k <= |shape|
    requires forall j :: 0 <= j < k ==> shape[j] == 1
    requires InBounds(idx, shape[k..])
    ensures HasShape(SqueezeLeading(x, shape, k), shape[k..])
    ensures InBounds(Zeros(k) + idx, shape)
    ensures At(SqueezeLeading(x, shape, k), shape[k..], idx) == At(x, shape, Zeros(k) + idx)
    decreases k
  {
    if k == 0 {
      assert Zeros(k) + idx == idx;
    } else {
      assert shape[1..][k - 1..] == shape[k..];
      SqueezeLeadingAt(x.items[0], shape[1..], k - 1, idx);
      var full := Zeros(k) + idx;
      assert full[0] == 0 && full[1..] == Zeros(k - 1) + idx;
    }
  }

  /** Squeezing undoes adding leading axes. */
  lemma {:induction false} SqueezeAddLeading<T>(x: Tensor<T>, shape: seq<nat>, k: nat)
    requires HasShape(x, shape)
    ensures HasShape(AddLeading(x, k), Ones(k) + shape)
    ensures (Ones(k) + shape)[k..] == shape
    ensures SqueezeLeading(AddLeading(x, k), Ones(k) + shape, k) == x
  {
    AddLeadingShape(x, shape, k);
    if k > 0 {
      assert (Ones(k) + shape)[1..] == Ones(k - 1) + shape;
      SqueezeAddLeading(x, shape, k - 1);
    }
  }

  /** Adding or removing unit axes keeps `np.any`. */
  lemma {:induction false} AddLeadingAny(x: Tensor<bool>, k: nat)
    ensures AnyTrue(AddLeading(x, k)) <==> AnyTrue(x)
  {
    if k > 0 {
      AddLeadingAny(x, k - 1);
      var y := AddLeading(x, k);
      assert y.items[0] == AddLeading(x, k - 1);
      if AnyTrue(y.items[0]) {
        assert AnyTrue(y);
      }
    }
  }

  lemma {:induction false} SqueezeLeadingAny(x: Tensor<bool>, shape: seq<nat>, k: nat)
    requires HasShape(x, shape) && k <= |shape|
    requires forall j :: 0 <= j < k ==> shape[j] == 1
    ensures AnyTrue(SqueezeLeading(x, shape, k)) <==> AnyTrue(x)
    decreases k
  {
    if k > 0 {
      SqueezeLeadingAny(x.items[0], shape[1..], k - 1);
      if AnyTrue(x.items[0]) {
        assert AnyTrue(x);
      }
    }
  }
}
