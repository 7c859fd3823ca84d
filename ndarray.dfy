/** numpy arrays as values: a nested tensor together with its shape.
    `Stack(items)` is one axis; `items[i]` is the sub-array at index `i` of
    that axis, so the layout is numpy's row-major (C) order. */
module NdArrays {
  import opened Shapes

  datatype Tensor<T> = Scalar(value: T) | Stack(items: seq<Tensor<T>>)

  /** `x` is a rectangular array of the given shape. */
  predicate HasShape<T>(x: Tensor<T>, shape: seq<nat>)
    decreases |shape|
  {
    if shape == [] then x.Scalar?
    else
      x.Stack? && |x.items| == shape[0] &&
      forall i :: 0 <= i < |x.items| ==> HasShape(x.items[i], shape[1..])
  }

  /** A numpy array: its shape and its elements. */
  datatype Array<T> = Array(shape: seq<nat>, elems: Tensor<T>) {
    predicate Valid() {
      HasShape(elems, shape)
    }
  }

  /** A 0-dimensional array (a Python scalar such as `True` or `False`). */
  function Scalar0<T>(v: T): (a: Array<T>)
    ensures a.Valid() && a.shape == []
  {
    Array([], Scalar(v))
  }

  predicate InBounds(idx: seq<nat>, shape: seq<nat>) {
    |idx| == |shape| && forall j :: 0 <= j < |idx| ==> idx[j] < shape[j]
  }

  /** Element `x[idx]`. */
  function At<T>(x: Tensor<T>, shape: seq<nat>, idx: seq<nat>): T
    requires HasShape(x, shape) && InBounds(idx, shape)
    decreases |shape|
  {
    if shape == [] then x.value
    else At(x.items[idx[0]], shape[1..], idx[1..])
  }

  /** Two arrays of the same shape with the same elements are equal. */
  lemma {:induction false} Extensionality<T>(x: Tensor<T>, y: Tensor<T>, shape: seq<nat>)
    requires HasShape(x, shape) && HasShape(y, shape)
    requires forall idx :: InBounds(idx, shape) ==> At(x, shape, idx) == At(y, shape, idx)
    ensures x == y
    decreases |shape|
  {
    if shape != [] {
      forall i | 0 <= i < shape[0] ensures x.items[i] == y.items[i] {
        forall idx | InBounds(idx, shape[1..])
          ensures At(x.items[i], shape[1..], idx) == At(y.items[i], shape[1..], idx)
        {
          var full := [i] + idx;
          assert InBounds(full, shape);
          assert full[1..] == idx;
          assert At(x, shape, full) == At(y, shape, full);
        }
        Extensionality(x.items[i], y.items[i], shape[1..]);
      }
      assert x.items == y.items;
    } else {
      assert InBounds([], shape);
      assert At(x, shape, []) == At(y, shape, []);
    }
  }

  /** Apply `f` to every element (a numpy ufunc of one argument). */
  function Map<T, U>(f: T -> U, x: Tensor<T>): Tensor<U>
    decreases x
  {
    match x
    case Scalar(v) => Scalar(f(v))
    case Stack(items) => Stack(seq(|items|, i requires 0 <= i < |items| => Map(f, items[i])))
  }

  lemma {:induction false} MapShape<T, U>(f: T -> U, x: Tensor<T>, shape: seq<nat>)
    requires HasShape(x, shape)
    ensures HasShape(Map(f, x), shape)
    decreases |shape|
  {
    if shape != [] {
      forall i | 0 <= i < |x.items| ensures HasShape(Map(f, x).items[i], shape[1..]) {
        MapShape(f, x.items[i], shape[1..]);
      }
    }
  }

  lemma {:induction false} MapAt<T, U>(f: T -> U, x: Tensor<T>, shape: seq<nat>, idx: seq<nat>)
    requires HasShape(x, shape) && InBounds(idx, shape)
    ensures HasShape(Map(f, x), shape)
    ensures At(Map(f, x), shape, idx) == f(At(x, shape, idx))
    decreases |shape|
  {
    MapShape(f, x, shape);
    if shape != [] {
      MapAt(f, x.items[idx[0]], shape[1..], idx[1..]);
    }
  }

  /** Element-wise binary operation on two arrays of the same shape. */
  function Zip<T>(f: (T, T) -> T, x: Tensor<T>, y: Tensor<T>): Tensor<T>
    decreases x
  {
    match x
    case Scalar(a) => if y.Scalar? then Scalar(f(a, y.value)) else x
    case Stack(xs) =>
      if y.Stack? && |y.items| == |xs| then
        Stack(seq(|xs|, i requires 0 <= i < |xs| => Zip(f, xs[i], y.items[i])))
      else x
  }

  lemma {:induction false} ZipShape<T>(f: (T, T) -> T, x: Tensor<T>, y: Tensor<T>, shape: seq<nat>)
    requires HasShape(x, shape) && HasShape(y, shape)
    ensures HasShape(Zip(f, x, y), shape)
    decreases |shape|
  {
    if shape != [] {
      forall i | 0 <= i < |x.items| ensures HasShape(Zip(f, x, y).items[i], shape[1..]) {
        ZipShape(f, x.items[i], y.items[i], shape[1..]);
      }
    }
  }

  lemma {:induction false} ZipAt<T>(f: (T, T) -> T, x: Tensor<T>, y: Tensor<T>, shape: seq<nat>, idx: seq<nat>)
    requires HasShape(x, shape) && HasShape(y, shape) && InBounds(idx, shape)
    ensures HasShape(Zip(f, x, y), shape)
    ensures At(Zip(f, x, y), shape, idx) == f(At(x, shape, idx), At(y, shape, idx))
    decreases |shape|
  {
    ZipShape(f, x, y, shape);
    if shape != [] {
      ZipAt(f, x.items[idx[0]], y.items[idx[0]], shape[1..], idx[1..]);
    }
  }

  /** `where`-style element-wise choice: `c ? a : b` at every index. */
  function Select<T>(c: Tensor<bool>, a: Tensor<T>, b: Tensor<T>): Tensor<T>
    decreases c
  {
    match c
    case Scalar(v) => if v then a else b
    case Stack(cs) =>
      if a.Stack? && b.Stack? && |a.items| == |cs| && |b.items| == |cs| then
        Stack(seq(|cs|, i requires 0 <= i < |cs| => Select(cs[i], a.items[i], b.items[i])))
      else b
  }

  lemma {:induction false} SelectAt<T>(c: Tensor<bool>, a: Tensor<T>, b: Tensor<T>, shape: seq<nat>, idx: seq<nat>)
    requires HasShape(c, shape) && HasShape(a, shape) && HasShape(b, shape)
    requires InBounds(idx, shape)
    ensures HasShape(Select(c, a, b), shape)
    ensures At(Select(c, a, b), shape, idx) ==
            if At(c, shape, idx) then At(a, shape, idx) else At(b, shape, idx)
    decreases |shape|
  {
    SelectShape(c, a, b, shape);
    if shape != [] {
      SelectAt(c.items[idx[0]], a.items[idx[0]], b.items[idx[0]], shape[1..], idx[1..]);
    }
  }

  lemma {:induction false} SelectShape<T>(c: Tensor<bool>, a: Tensor<T>, b: Tensor<T>, shape: seq<nat>)
    requires HasShape(c, shape) && HasShape(a, shape) && HasShape(b, shape)
    ensures HasShape(Select(c, a, b), shape)
    decreases |shape|
  {
    if shape != [] {
      forall i | 0 <= i < |c.items| ensures HasShape(Select(c, a, b).items[i], shape[1..]) {
        SelectShape(c.items[i], a.items[i], b.items[i], shape[1..]);
      }
    }
  }

  /** `np.any`: some element is true. */
  predicate AnyTrue(x: Tensor<bool>)
    decreases x
  {
    match x
    case Scalar(v) => v
    case Stack(items) => exists i :: 0 <= i < |items| && AnyTrue(items[i])
  }

  /** `np.all`: every element is true (vacuously so for an empty array). */
  predicate AllTrue(x: Tensor<bool>)
    decreases x
  {
    match x
    case Scalar(v) => v
    case Stack(items) => forall i :: 0 <= i < |items| ==> AllTrue(items[i])
  }

  /** `np.any(f(x))` is "`f` holds at some index". */
  lemma AnyMapAt<T>(f: T -> bool, x: Tensor<T>, shape: seq<nat>)
    requires HasShape(x, shape)
    ensures AnyTrue(Map(f, x)) <==> exists idx :: InBounds(idx, shape) && f(At(x, shape, idx))
  {
    MapShape(f, x, shape);
    AnyTrueAt(Map(f, x), shape);
    forall idx | InBounds(idx, shape) ensures At(Map(f, x), shape, idx) == f(At(x, shape, idx)) {
      MapAt(f, x, shape, idx);
    }
  }

  /** `AnyTrue` is "some index holds true". */
  lemma AnyTrueAt(x: Tensor<bool>, shape: seq<nat>)
    requires HasShape(x, shape)
    ensures AnyTrue(x) <==> exists idx :: InBounds(idx, shape) && At(x, shape, idx)
  {
    if AnyTrue(x) {
      AnyTrueWitness(x, shape);
    }
    if exists idx :: InBounds(idx, shape) && At(x, shape, idx) {
      var idx :| InBounds(idx, shape) && At(x, shape, idx);
      TrueAtAny(x, shape, idx);
    }
  }

  lemma {:induction false} AnyTrueWitness(x: Tensor<bool>, shape: seq<nat>)
    requires HasShape(x, shape) && AnyTrue(x)
    ensures exists idx :: InBounds(idx, shape) && At(x, shape, idx)
    decreases |shape|
  {
    if shape == [] {
      assert InBounds([], shape);
    } else {
      var i :| 0 <= i < |x.items| && AnyTrue(x.items[i]);
      AnyTrueWitness(x.items[i], shape[1..]);
      var idx :| InBounds(idx, shape[1..]) && At(x.items[i], shape[1..], idx);
      var full := [i] + idx;
      assert full[1..] == idx;
      assert InBounds(full, shape) && At(x, shape, full);
    }
  }

  lemma {:induction false} TrueAtAny(x: Tensor<bool>, shape: seq<nat>, idx: seq<nat>)
    requires HasShape(x, shape) && InBounds(idx, shape) && At(x, shape, idx)
    ensures AnyTrue(x)
    decreases |shape|
  {
    if shape != [] {
      TrueAtAny(x.items[idx[0]], shape[1..], idx[1..]);
    }
  }

  /** An array with no true element is false at every index. */
  lemma {:induction false} NotAnyAt(x: Tensor<bool>, shape: seq<nat>, idx: seq<nat>)
    requires HasShape(x, shape) && InBounds(idx, shape) && !AnyTrue(x)
    ensures !At(x, shape, idx)
    decreases |shape|
  {
    if shape != [] {
      NotAnyAt(x.items[idx[0]], shape[1..], idx[1..]);
    }
  }

  /** `AllTrue` is "every index holds true". */
  lemma {:induction false} AllTrueAt(x: Tensor<bool>, shape: seq<nat>, idx: seq<nat>)
    requires HasShape(x, shape) && InBounds(idx, shape) && AllTrue(x)
    ensures At(x, shape, idx)
    decreases |shape|
  {
    if shape != [] {
      AllTrueAt(x.items[idx[0]], shape[1..], idx[1..]);
    }
  }
}
