/** Messages and masks the `tile` node sends to its parent
    (`_Tile._compute_message_to_parent` and `_Tile._compute_mask_to_parent`
    in `bayespy/inference/vmp/nodes/deterministic.py`). The array is padded
    with unit axes to a common length, every axis is reshaped into a
    (replica, plate) pair, the replicas are combined (`np.sum` for messages,
    `np.any` for masks) and the leading unit axes the parent does not have
    are squeezed away. An axis of length 1 in the array was broadcast over
    all replicas: it stays a unit axis, and a message counts it once per
    replica (the factor `r`). */
module TileMessages {
  import opened Common
  import opened Shapes
  import opened NdArrays
  import opened Broadcasting
  import opened Replication
  import opened Reductions
  import opened TilePlates

  /** The (replica, plate) axis pairs the array is reshaped into. */
  datatype Layout = Layout(tiles: seq<nat>, plates: seq<nat>)

  /** Product of the tile counts of the axes where the array has length 1. */
  function UnitTilesProd(tiles: seq<nat>, shapeM: seq<nat>): nat
    requires |tiles| == |shapeM|
    decreases |tiles|
  {
    if tiles == [] then 1
    else
      var n := |tiles| - 1;
      UnitTilesProd(tiles[..n], shapeM[..n]) * (if shapeM[n] == 1 then tiles[n] else 1)
  }

  lemma UnitTilesProdStep(tiles: seq<nat>, shapeM: seq<nat>, j: nat)
    requires |tiles| == |shapeM| && j < |tiles|
    ensures UnitTilesProd(tiles[..j + 1], shapeM[..j + 1]) ==
            UnitTilesProd(tiles[..j], shapeM[..j]) * (if shapeM[j] == 1 then tiles[j] else 1)
  {
    assert tiles[..j + 1][..j] == tiles[..j] && shapeM[..j + 1][..j] == shapeM[..j];
  }

  function Width(tilesIn: seq<nat>, platesIn: seq<nat>, shapeM: seq<nat>): nat {
    Max(Max(|tilesIn|, |platesIn|), |shapeM|)
  }

  /** `make_equal_length` of the tiles, the plates and the array's shape,
      then every axis where the array has length 1 gets tile and plate 1. */
  function AxisLayout(tilesIn: seq<nat>, platesIn: seq<nat>, shapeM: seq<nat>): (l: Layout)
    ensures |l.tiles| == |l.plates| == Width(tilesIn, platesIn, shapeM)
  {
    var n := Width(tilesIn, platesIn, shapeM);
    var t, p, m := PadLeft(tilesIn, n), PadLeft(platesIn, n), PadLeft(shapeM, n);
    Layout(seq(n, j requires 0 <= j < n => if m[j] == 1 then 1 else t[j]),
           seq(n, j requires 0 <= j < n => if m[j] == 1 then 1 else p[j]))
  }

  /** The factor `r`: how many replicas each element on a unit axis of the
      array stands for. */
  function Multiplicity(tilesIn: seq<nat>, platesIn: seq<nat>, shapeM: seq<nat>): nat {
    var n := Width(tilesIn, platesIn, shapeM);
    UnitTilesProd(PadLeft(tilesIn, n), PadLeft(shapeM, n))
  }

  /** The loop over the array's axes: each unit axis multiplies `r` by its
      tile count, then its tile and plate become 1. The mask uses the same
      loop and ignores `r`. */
  method UnitAxes(tilesIn: seq<nat>, platesIn: seq<nat>, shapeM: seq<nat>) returns (l: Layout, r: nat)
    ensures l == AxisLayout(tilesIn, platesIn, shapeM)
    ensures r == Multiplicity(tilesIn, platesIn, shapeM)
  {
    var n := Width(tilesIn, platesIn, shapeM);
    var tiles, plates, shape := PadLeft(tilesIn, n), PadLeft(platesIn, n), PadLeft(shapeM, n);
    ghost var t0, p0 := tiles, plates;
    r := 1;
    var j := 0;
    while j < n
      invariant 0 <= j <= n && |tiles| == |plates| == n
      invariant forall k :: 0 <= k < n ==> tiles[k] == if k < j && shape[k] == 1 then 1 else t0[k]
      invariant forall k :: 0 <= k < n ==> plates[k] == if k < j && shape[k] == 1 then 1 else p0[k]
      invariant r == UnitTilesProd(t0[..j], shape[..j])
    {
      UnitTilesProdStep(t0, shape, j);
      if shape[j] == 1 {
        r := r * tiles[j];
        plates := plates[j := 1];
        tiles := tiles[j := 1];
      }
      j := j + 1;
    }
    assert t0[..n] == t0 && shape[..n] == shape;
    l := Layout(tiles, plates);
  }

  /** An array of shape `shape` can be reshaped into the layout's axis
      pairs, axis by axis. */
  predicate Fits(shape: seq<nat>, l: Layout) {
    |l.tiles| == |l.plates| && |shape| <= |l.plates| &&
    PadLeft(shape, |l.plates|) == Mul(l.tiles, l.plates)
  }

  lemma AddLeadingPad<T>(x: Tensor<T>, shape: seq<nat>, n: nat)
    requires HasShape(x, shape) && |shape| <= n
    ensures HasShape(AddLeading(x, n - |shape|), PadLeft(shape, n))
  {
    AddLeadingShape(x, shape, n - |shape|);
    if |shape| == n {
      assert Ones(0) + shape == shape;
    }
  }

  /** The reshape into axis pairs followed by the reduction over the
      replica axes 0, 2, 4, ... */
  function Regroup<T>(x: Array<T>, l: Layout, op: (T, T) -> T): (r: Tensor<T>)
    requires x.Valid() && Fits(x.shape, l) && Positive(l.tiles)
    ensures HasShape(r, l.plates)
  {
    var k := |l.plates| - |x.shape|;
    AddLeadingPad(x.elems, x.shape, |l.plates|);
    ReduceShape(AddLeading(x.elems, k), l.tiles, l.plates, op);
    Reduce(AddLeading(x.elems, k), l.tiles, l.plates, op)
  }

  /** The arithmetic of one axis pair: `m` is the array's axis, `t` and
      `v` the tile and plate it broadcasts to, `lt` and `lp` the layout's. */
  lemma AxisArith(m: nat, t: nat, v: nat, lt: nat, lp: nat)
    requires t > 0 && (m == 1 || m == t * v)
    requires lt == (if m == 1 then 1 else t) && lp == (if m == 1 then 1 else v)
    ensures lt > 0 && m == lt * lp
  {
  }

  lemma LayoutAt(tilesIn: seq<nat>, platesIn: seq<nat>, shapeM: seq<nat>, j: nat)
    requires |tilesIn| <= |platesIn| && |shapeM| <= |platesIn| && j < |platesIn|
    ensures var l := AxisLayout(tilesIn, platesIn, shapeM);
      var n := |platesIn|;
      var m := PadLeft(shapeM, n)[j];
      |l.plates| == n &&
      l.tiles[j] == (if m == 1 then 1 else PadLeft(tilesIn, n)[j]) &&
      l.plates[j] == (if m == 1 then 1 else platesIn[j])
  {
    var n := |platesIn|;
    assert Width(tilesIn, platesIn, shapeM) == n;
    PadLeftIn(platesIn, n, j);
  }

  lemma LayoutAxis(tilesIn: seq<nat>, platesIn: seq<nat>, shapeM: seq<nat>, j: nat)
    requires |tilesIn| <= |platesIn| && |shapeM| <= |platesIn| && j < |platesIn|
    requires PadLeft(tilesIn, |platesIn|)[j] > 0
    requires var m := PadLeft(shapeM, |platesIn|)[j];
      m == 1 || m == Mul(PadLeft(tilesIn, |platesIn|), platesIn)[j]
    ensures var l := AxisLayout(tilesIn, platesIn, shapeM);
      var m := PadLeft(shapeM, |platesIn|)[j];
      |l.plates| == |platesIn| && l.tiles[j] > 0 &&
      m == Mul(l.tiles, l.plates)[j] &&
      l.plates[j] == (if m == 1 then 1 else platesIn[j])
  {
    var n := |platesIn|;
    var m := PadLeft(shapeM, n)[j];
    var t := PadLeft(tilesIn, n)[j];
    assert Mul(PadLeft(tilesIn, n), platesIn)[j] == t * platesIn[j];
    LayoutAt(tilesIn, platesIn, shapeM, j);
    var l := AxisLayout(tilesIn, platesIn, shapeM);
    AxisArith(m, t, platesIn[j], l.tiles[j], l.plates[j]);
    assert Mul(l.tiles, l.plates)[j] == l.tiles[j] * l.plates[j];
  }

  /** When the array broadcasts to `tiles * plates`, the layout fits it. */
  lemma LayoutFits(tilesIn: seq<nat>, platesIn: seq<nat>, shapeM: seq<nat>)
    requires |tilesIn| <= |platesIn| && Positive(tilesIn)
    requires Compatible(shapeM, Mul(PadLeft(tilesIn, |platesIn|), platesIn))
    ensures var l := AxisLayout(tilesIn, platesIn, shapeM);
      |l.plates| == |platesIn| && Fits(shapeM, l) && Positive(l.tiles)
  {
    var l := AxisLayout(tilesIn, platesIn, shapeM);
    var n := |platesIn|;
    assert |Mul(PadLeft(tilesIn, n), platesIn)| == n;
    assert |l.plates| == n;
    forall j | 0 <= j < n
      ensures l.tiles[j] > 0 && PadLeft(shapeM, n)[j] == Mul(l.tiles, l.plates)[j]
    {
      LayoutFitsAt(tilesIn, platesIn, shapeM, j);
    }
    FitsByAxis(shapeM, l);
  }

  lemma LayoutFitsAt(tilesIn: seq<nat>, platesIn: seq<nat>, shapeM: seq<nat>, j: nat)
    requires |tilesIn| <= |platesIn| && Positive(tilesIn) && j < |platesIn|
    requires Compatible(shapeM, Mul(PadLeft(tilesIn, |platesIn|), platesIn))
    ensures var l := AxisLayout(tilesIn, platesIn, shapeM);
      |l.plates| == |platesIn| && l.tiles[j] > 0 &&
      PadLeft(shapeM, |platesIn|)[j] == Mul(l.tiles, l.plates)[j]
  {
    var n := |platesIn|;
    CompatiblePadded(shapeM, Mul(PadLeft(tilesIn, n), platesIn), j);
    PadLeftIn(tilesIn, n, j);
    LayoutAxis(tilesIn, platesIn, shapeM, j);
  }

  lemma FitsByAxis(shape: seq<nat>, l: Layout)
    requires |l.tiles| == |l.plates| && |shape| <= |l.plates|
    requires forall j :: 0 <= j < |l.plates| ==> PadLeft(shape, |l.plates|)[j] == Mul(l.tiles, l.plates)[j]
    ensures Fits(shape, l)
  {
    assert PadLeft(shape, |l.plates|) == Mul(l.tiles, l.plates);
  }
  lemma NodeShapeSplitAt(p: seq<nat>, tiles: seq<nat>, d: seq<nat>, j: nat)
    requires j < Max(|p|, |tiles|) + |d|
    ensures var platesIn := PadLeft(p, |tiles|) + d;
      |platesIn| == Max(|p|, |tiles|) + |d| &&
      Mul(PadLeft(tiles + Ones(|d|), |platesIn|), platesIn)[j] == (PlatesFromParent(p, tiles) + d)[j]
  {
    var K := Max(|p|, |tiles|);
    var platesIn := PadLeft(p, |tiles|) + d;
    var tilesIn := tiles + Ones(|d|);
    var N := K + |d|;
    assert |platesIn| == N;
    var a := PadLeft(tilesIn, N)[j];
    var v := platesIn[j];
    assert Mul(PadLeft(tilesIn, N), platesIn)[j] == a * v;
    PadLeftIn(tilesIn, N, j);
    if j < K {
      var b := PadLeft(p, K)[j];
      var t := PadLeft(tiles, K)[j];
      assert v == b by {
        PadLeftAt(p, |tiles|, j);
        PadLeftAt(p, K, j);
      }
      assert a == t by {
        PadLeftIn(tiles, K, j);
      }
      assert (PlatesFromParent(p, tiles) + d)[j] == b * t;
      SwappedProducts(a, v, b, t);
    } else {
      assert a == 1;
    }
  }

  lemma SwappedProducts(a: nat, v: nat, b: nat, t: nat)
    requires a == t && v == b
    ensures a * v == b * t
  {
  }

  /** The node's plates and variable dimensions are the tiles (extended
      with ones) times the parent's padded plates and dimensions. */
  lemma NodeShapeSplit(p: seq<nat>, tiles: seq<nat>, d: seq<nat>)
    ensures var platesIn := PadLeft(p, |tiles|) + d;
      |tiles + Ones(|d|)| <= |platesIn| &&
      Mul(PadLeft(tiles + Ones(|d|), |platesIn|), platesIn) == PlatesFromParent(p, tiles) + d
  {
    var platesIn := PadLeft(p, |tiles|) + d;
    var lhs := Mul(PadLeft(tiles + Ones(|d|), |platesIn|), platesIn);
    var rhs := PlatesFromParent(p, tiles) + d;
    forall j | 0 <= j < |rhs| ensures lhs[j] == rhs[j] {
      NodeShapeSplitAt(p, tiles, d, j);
    }
  }

  /** The layout of an array that broadcasts to the node's plates followed
      by the variable dimensions `d` fits the array. */
  lemma NodeLayoutFits(p: seq<nat>, tiles: seq<nat>, d: seq<nat>, shapeM: seq<nat>)
    requires Positive(tiles) && Compatible(shapeM, PlatesFromParent(p, tiles) + d)
    ensures var l := AxisLayout(tiles + Ones(|d|), PadLeft(p, |tiles|) + d, shapeM);
      |l.plates| == Max(|p|, |tiles|) + |d| && Fits(shapeM, l) && Positive(l.tiles)
  {
    var platesIn := PadLeft(p, |tiles|) + d;
    var tilesIn := tiles + Ones(|d|);
    NodeShapeSplit(p, tiles, d);
    assert Positive(tilesIn);
    LayoutFits(tilesIn, platesIn, shapeM);
  }

  /** Plate `j` of that layout: 1 on the array's unit axes and on the
      leading axes the parent does not have, else the parent's plate or
      dimension it is aligned with. */
  lemma NodeLayoutAt(p: seq<nat>, tiles: seq<nat>, d: seq<nat>, shapeM: seq<nat>, j: nat)
    requires |shapeM| <= Max(|p|, |tiles|) + |d| && j < Max(|p|, |tiles|) + |d|
    ensures var K := Max(|p|, |tiles|);
      var l := AxisLayout(tiles + Ones(|d|), PadLeft(p, |tiles|) + d, shapeM);
      |l.plates| == K + |d| &&
      l.plates[j] == if j < K - |p| || PadLeft(shapeM, K + |d|)[j] == 1 then 1 else (p + d)[j - (K - |p|)]
  {
    var K := Max(|p|, |tiles|);
    var platesIn := PadLeft(p, |tiles|) + d;
    LayoutAt(tiles + Ones(|d|), platesIn, shapeM, j);
    if j < K {
      PadLeftAt(p, |tiles|, j);
    }
  }

  // ------------------------------------------------------------------ masks

  /** The layout the node uses for an array sent to its parent: it fits the
      array, and the leading axes beyond the parent's `|p| + |d|` all have
      plate 1. */
  lemma ParentLayout(p: seq<nat>, tiles: seq<nat>, d: seq<nat>, shapeM: seq<nat>, pp: seq<nat>)
    requires Positive(tiles) && ParentPlates(PlatesFromParent(p, tiles), tiles) == Ok(pp)
    requires Compatible(shapeM, PlatesFromParent(p, tiles) + d)
    ensures pp == PadLeft(p, |tiles|)
    ensures var K := Max(|p|, |tiles|);
      var l := AxisLayout(tiles + Ones(|d|), pp + d, shapeM);
      |l.plates| == K + |d| && Fits(shapeM, l) && Positive(l.tiles) &&
      forall i :: 0 <= i < K - |p| ==> l.plates[i] == 1
  {
    PlatesRoundTrip(p, tiles);
    NodeLayoutFits(p, tiles, d, shapeM);
    var K := Max(|p|, |tiles|);
    forall i | 0 <= i < K - |p| ensures AxisLayout(tiles + Ones(|d|), pp + d, shapeM).plates[i] == 1 {
      NodeLayoutAt(p, tiles, d, shapeM, i);
    }
  }

  /** The reshape into axis pairs, the reduction over the replica axes and
      `squeeze_to_dim`, which drops the first `k` axes, all of length 1. */
  function Collapse<T>(x: Array<T>, l: Layout, k: nat, op: (T, T) -> T): (r: Array<T>)
    requires x.Valid() && Fits(x.shape, l) && Positive(l.tiles)
    requires k <= |l.plates| && forall j :: 0 <= j < k ==> l.plates[j] == 1
    ensures r.Valid() && r.shape == l.plates[k..]
  {
    var y := Regroup(x, l, op);
    SqueezeLeadingShape(y, l.plates, k);
    Array(l.plates[k..], SqueezeLeading(y, l.plates, k))
  }

  /** A collapse with `np.sum`, multiplied by `c`. */
  function ScaledCollapse(x: Array<real>, l: Layout, k: nat, c: real): (r: Array<real>)
    requires x.Valid() && Fits(x.shape, l) && Positive(l.tiles)
    requires k <= |l.plates| && forall j :: 0 <= j < k ==> l.plates[j] == 1
    ensures r.Valid() && r.shape == l.plates[k..]
  {
    var y := Collapse(x, l, k, Add);
    ScaleShape(c, y.elems, y.shape);
    Array(y.shape, Scale(c, y.elems))
  }

  /** `_compute_mask_to_parent` for positive tile counts: the mask reduced
      with `np.any` over the replicas, with as many axes as the parent has
      plates. */
  function MaskToParent(p: seq<nat>, tiles: seq<nat>, mask: Array<bool>): (r: Array<bool>)
    requires mask.Valid() && Compatible(mask.shape, PlatesFromParent(p, tiles)) && Positive(tiles)
    ensures r.Valid() && |r.shape| == |p|
  {
    var pp := ParentPlates(PlatesFromParent(p, tiles), tiles).value;
    NothingAppended(PlatesFromParent(p, tiles));
    NothingAppended(tiles);
    NothingAppended(pp);
    ParentLayout(p, tiles, [], mask.shape, pp);
    Collapse(mask, AxisLayout(tiles, pp, mask.shape), Max(|p|, |tiles|) - |p|, Or)
  }

  /** One message of `_compute_message_to_parent` for positive tile counts,
      for a variable with dimensions `d`: the message summed over the
      replicas, multiplied by the plate multiplier `r`, with as many axes as
      the parent's shape. */
  function MessageToParent(p: seq<nat>, tiles: seq<nat>, d: seq<nat>, m: Array<real>): (r: Array<real>)
    requires m.Valid() && Compatible(m.shape, PlatesFromParent(p, tiles) + d) && Positive(tiles)
    ensures r.Valid() && |r.shape| == |p| + |d|
  {
    var pp := ParentPlates(PlatesFromParent(p, tiles), tiles).value;
    ParentLayout(p, tiles, d, m.shape, pp);
    var tilesIn, platesIn := tiles + Ones(|d|), pp + d;
    var l := AxisLayout(tilesIn, platesIn, m.shape);
    ScaledCollapse(m, l, Max(|p|, |tiles|) - |p|, Multiplicity(tilesIn, platesIn, m.shape) as real)
  }

  /** The messages of `_compute_message_to_parent`, one per moment; the
      tile counts need to be positive only when there is a message. */
  function MessagesToParent(p: seq<nat>, tiles: seq<nat>, dims: seq<seq<nat>>, ms: seq<Array<real>>): (r: seq<Array<real>>)
    requires |dims| == |ms| && (ms != [] ==> Positive(tiles))
    requires forall i :: 0 <= i < |ms| ==> ms[i].Valid() && Compatible(ms[i].shape, PlatesFromParent(p, tiles) + dims[i])
    ensures |r| == |ms|
    ensures forall i :: 0 <= i < |ms| ==> r[i].Valid() && |r[i].shape| == |p| + |dims[i]|
  {
    seq(|ms|, i requires 0 <= i < |ms| => MessageToParent(p, tiles, dims[i], ms[i]))
  }

  /** `_compute_mask_to_parent` step by step: the parent's plates from
      `_plates_to_parent`, the unit-axis loop, then the reshape, `np.any` and
      `squeeze_to_dim`. */
  method ComputeMaskToParent(p: seq<nat>, tiles: seq<nat>, mask: Array<bool>) returns (r: Array<bool>)
    requires mask.Valid() && Compatible(mask.shape, PlatesFromParent(p, tiles)) && Positive(tiles)
    ensures r == MaskToParent(p, tiles, mask)
  {
    var plates := PlatesToParent(PlatesFromParent(p, tiles), tiles);
    assert plates.value == PadLeft(p, |tiles|) by {
      PlatesRoundTrip(p, tiles);
    }
    var l, _ := UnitAxes(tiles, plates.value, mask.shape);
    MaskIs(p, tiles, mask);
    r := Collapse(mask, l, Max(|p|, |tiles|) - |p|, Or);
  }

  /** The body of the loop of `_compute_message_to_parent` for one message,
      given the parent's plates `pp` from `_plates_to_parent`. */
  method ComputeOneMessage(p: seq<nat>, tiles: seq<nat>, d: seq<nat>, m: Array<real>, pp: seq<nat>)
    returns (y: Array<real>)
    requires m.Valid() && Compatible(m.shape, PlatesFromParent(p, tiles) + d) && Positive(tiles)
    requires ParentPlates(PlatesFromParent(p, tiles), tiles) == Ok(pp)
    ensures y == MessageToParent(p, tiles, d, m)
  {
    ParentLayout(p, tiles, d, m.shape, pp);
    var l, mult := UnitAxes(tiles + Ones(|d|), pp + d, m.shape);
    y := ScaledCollapse(m, l, Max(|p|, |tiles|) - |p|, mult as real);
  }

  /** `_compute_message_to_parent` step by step: the list of messages is
      copied and entry `ind` is overwritten by its reduced message. */
  method ComputeMessageToParent(p: seq<nat>, tiles: seq<nat>, dims: seq<seq<nat>>, ms: seq<Array<real>>)
    returns (r: seq<Array<real>>)
    requires |dims| == |ms| && (ms != [] ==> Positive(tiles))
    requires forall i :: 0 <= i < |ms| ==> ms[i].Valid() && Compatible(ms[i].shape, PlatesFromParent(p, tiles) + dims[i])
    ensures r == MessagesToParent(p, tiles, dims, ms)
  {
    var out := ms;
    var ind := 0;
    while ind < |ms|
      invariant 0 <= ind <= |ms| && |out| == |ms|
      invariant forall i :: 0 <= i < ind ==> out[i] == MessageToParent(p, tiles, dims[i], ms[i])
      invariant forall i :: ind <= i < |ms| ==> out[i] == ms[i]
    {
      var plates := PlatesToParent(PlatesFromParent(p, tiles), tiles);
      var y := ComputeOneMessage(p, tiles, dims[ind], out[ind], plates.value);
      out := out[ind := y];
      ind := ind + 1;
    }
    MessagesToParentIs(p, tiles, dims, ms, out);
    r := out;
  }

  /** Messages that agree one by one with `MessageToParent` are the result
      of `MessagesToParent`. */
  lemma MessagesToParentIs(p: seq<nat>, tiles: seq<nat>, dims: seq<seq<nat>>, ms: seq<Array<real>>, out: seq<Array<real>>)
    requires |dims| == |ms| == |out| && (ms != [] ==> Positive(tiles))
    requires forall i :: 0 <= i < |ms| ==> ms[i].Valid() && Compatible(ms[i].shape, PlatesFromParent(p, tiles) + dims[i])
    requires forall i :: 0 <= i < |ms| ==> out[i] == MessageToParent(p, tiles, dims[i], ms[i])
    ensures MessagesToParent(p, tiles, dims, ms) == out
  {
    assert forall i :: 0 <= i < |ms| ==> MessagesToParent(p, tiles, dims, ms)[i] == out[i];
  }

  // ------------------------------------------------------------ properties

  lemma SingletonTotal(x: Tensor<real>)
    requires x.Stack? && |x.items| == 1
    ensures Total(x) == Total(x.items[0])
  {
    TotalStack(x);
    var ts := Totals(x.items);
    assert ts[1..] == [];
  }

  lemma {:induction false} AddLeadingTotal(x: Tensor<real>, k: nat)
    ensures Total(AddLeading(x, k)) == Total(x)
  {
    if k > 0 {
      AddLeadingTotal(x, k - 1);
      var y := AddLeading(x, k);
      SingletonTotal(y);
    }
  }

  lemma {:induction false} SqueezeLeadingTotal(x: Tensor<real>, shape: seq<nat>, k: nat)
    requires HasShape(x, shape) && k <= |shape|
    requires forall j :: 0 <= j < k ==> shape[j] == 1
    ensures Total(SqueezeLeading(x, shape, k)) == Total(x)
    decreases k
  {
    if k > 0 {
      SqueezeLeadingTotal(x.items[0], shape[1..], k - 1);
      SingletonTotal(x);
    }
  }

  /** Reducing with `or` keeps `np.any` of the whole array. */
  lemma CollapseAny(x: Array<bool>, l: Layout, k: nat)
    requires x.Valid() && Fits(x.shape, l) && Positive(l.tiles)
    requires k <= |l.plates| && forall j :: 0 <= j < k ==> l.plates[j] == 1
    ensures AnyTrue(Collapse(x, l, k, Or).elems) <==> AnyTrue(x.elems)
  {
    var y := AddLeading(x.elems, |l.plates| - |x.shape|);
    AddLeadingPad(x.elems, x.shape, |l.plates|);
    AddLeadingAny(x.elems, |l.plates| - |x.shape|);
    ReduceOrAny(y, l.tiles, l.plates);
    SqueezeLeadingAny(Regroup(x, l, Or), l.plates, k);
  }

  /** Reducing with `+` keeps the sum of the whole array. */
  lemma CollapseTotal(x: Array<real>, l: Layout, k: nat)
    requires x.Valid() && Fits(x.shape, l) && Positive(l.tiles)
    requires k <= |l.plates| && forall j :: 0 <= j < k ==> l.plates[j] == 1
    ensures Total(Collapse(x, l, k, Add).elems) == Total(x.elems)
  {
    var y := AddLeading(x.elems, |l.plates| - |x.shape|);
    AddLeadingPad(x.elems, x.shape, |l.plates|);
    AddLeadingTotal(x.elems, |l.plates| - |x.shape|);
    ReduceAddTotal(y, l.tiles, l.plates);
    SqueezeLeadingTotal(Regroup(x, l, Add), l.plates, k);
  }

  /** The plate multiplier of a message to the parent: the product of the
      tile counts of the node's axes on which the message has length 1. */
  function MessageMultiplicity(p: seq<nat>, tiles: seq<nat>, d: seq<nat>, shapeM: seq<nat>): nat {
    Multiplicity(tiles + Ones(|d|), PadLeft(p, |tiles|) + d, shapeM)
  }

  /** With positive tiles, the mask sent to the parent is the node's mask
      collapsed on the layout built from the parent's padded plates. */
  lemma MaskIs(p: seq<nat>, tiles: seq<nat>, mask: Array<bool>)
    requires mask.Valid() && Compatible(mask.shape, PlatesFromParent(p, tiles)) && Positive(tiles)
    ensures var l := AxisLayout(tiles, PadLeft(p, |tiles|), mask.shape);
      var k := Max(|p|, |tiles|) - |p|;
      Fits(mask.shape, l) && Positive(l.tiles) && k <= |l.plates| && (forall j :: 0 <= j < k ==> l.plates[j] == 1) &&
      MaskToParent(p, tiles, mask) == Collapse(mask, l, k, Or)
  {
    var pp := ParentPlates(PlatesFromParent(p, tiles), tiles).value;
    NothingAppended(PlatesFromParent(p, tiles));
    NothingAppended(tiles);
    NothingAppended(pp);
    ParentLayout(p, tiles, [], mask.shape, pp);
  }

  lemma NothingAppended(s: seq<nat>)
    ensures s + [] == s && s + Ones(0) == s
  {
    assert Ones(0) == [];
  }

  /** The same for a message, which is also scaled by the multiplier. */
  lemma MessageIs(p: seq<nat>, tiles: seq<nat>, d: seq<nat>, m: Array<real>)
    requires m.Valid() && Compatible(m.shape, PlatesFromParent(p, tiles) + d) && Positive(tiles)
    ensures var l := AxisLayout(tiles + Ones(|d|), PadLeft(p, |tiles|) + d, m.shape);
      var k := Max(|p|, |tiles|) - |p|;
      var c := MessageMultiplicity(p, tiles, d, m.shape) as real;
      Fits(m.shape, l) && Positive(l.tiles) && k <= |l.plates| && (forall j :: 0 <= j < k ==> l.plates[j] == 1) &&
      MessageToParent(p, tiles, d, m) == ScaledCollapse(m, l, k, c)
  {
    var pp := ParentPlates(PlatesFromParent(p, tiles), tiles).value;
    ParentLayout(p, tiles, d, m.shape, pp);
  }

  /** The mask sent to the parent has a true element exactly when the
      node's mask has one: `np.any` over the replicas loses no observation. */
  lemma MaskAny(p: seq<nat>, tiles: seq<nat>, mask: Array<bool>)
    requires mask.Valid() && Compatible(mask.shape, PlatesFromParent(p, tiles)) && Positive(tiles)
    ensures AnyTrue(MaskToParent(p, tiles, mask).elems) <==> AnyTrue(mask.elems)
  {
    var l := AxisLayout(tiles, PadLeft(p, |tiles|), mask.shape);
    var k := Max(|p|, |tiles|) - |p|;
    assert Fits(mask.shape, l) && Positive(l.tiles) && k <= |l.plates| && (forall j :: 0 <= j < k ==> l.plates[j] == 1) &&
           MaskToParent(p, tiles, mask) == Collapse(mask, l, k, Or) by {
      MaskIs(p, tiles, mask);
    }
    CollapseAny(mask, l, k);
  }

  /** Collapsing with `np.sum` and scaling by `c` scales the total by `c`. */
  lemma ScaledCollapseTotal(x: Array<real>, l: Layout, k: nat, c: real)
    requires x.Valid() && Fits(x.shape, l) && Positive(l.tiles)
    requires k <= |l.plates| && forall j :: 0 <= j < k ==> l.plates[j] == 1
    ensures Total(ScaledCollapse(x, l, k, c).elems) == Total(Scale(c, x.elems))
  {
    CollapseTotal(x, l, k);
    ScaleTotalEq(c, Collapse(x, l, k, Add).elems, x.elems);
  }

  /** `ScaledCollapseTotal` for a value known to be the scaled collapse. */
  lemma CollapsedTotal(x: Array<real>, y: Array<real>, l: Layout, k: nat, c: real)
    requires x.Valid() && Fits(x.shape, l) && Positive(l.tiles)
    requires k <= |l.plates| && forall j :: 0 <= j < k ==> l.plates[j] == 1
    requires y == ScaledCollapse(x, l, k, c)
    ensures Total(y.elems) == Total(Scale(c, x.elems))
  {
    ScaledCollapseTotal(x, l, k, c);
  }

  /** The message sent to the parent sums to the plate multiplier times the
      sum of the node's message: every replica's contribution is kept, and a
      value broadcast over the replicas of an axis counts once per replica. */
  lemma MessageTotal(p: seq<nat>, tiles: seq<nat>, d: seq<nat>, m: Array<real>)
    requires m.Valid() && Compatible(m.shape, PlatesFromParent(p, tiles) + d) && Positive(tiles)
    ensures Total(MessageToParent(p, tiles, d, m).elems) ==
            Total(Scale(MessageMultiplicity(p, tiles, d, m.shape) as real, m.elems))
  {
    MessageIs(p, tiles, d, m);
    CollapsedTotal(m, MessageToParent(p, tiles, d, m), AxisLayout(tiles + Ones(|d|), PadLeft(p, |tiles|) + d, m.shape),
      Max(|p|, |tiles|) - |p|, MessageMultiplicity(p, tiles, d, m.shape) as real);
  }

  /** The multiplier is 1 when no axis of length 1 in the message meets a
      tile count other than 1. */
  lemma {:induction false} UnitTilesProdOne(tiles: seq<nat>, shapeM: seq<nat>)
    requires |tiles| == |shapeM|
    requires forall j :: 0 <= j < |tiles| && shapeM[j] == 1 ==> tiles[j] == 1
    ensures UnitTilesProd(tiles, shapeM) == 1
    decreases |tiles|
  {
    if tiles != [] {
      UnitTilesProdOne(tiles[..|tiles| - 1], shapeM[..|tiles| - 1]);
    }
  }

  /** With positive tile counts the multiplier is at least 1. */
  lemma {:induction false} UnitTilesProdPositive(tiles: seq<nat>, shapeM: seq<nat>)
    requires |tiles| == |shapeM| && Positive(tiles)
    ensures UnitTilesProd(tiles, shapeM) >= 1
    decreases |tiles|
  {
    if tiles != [] {
      var n := |tiles| - 1;
      UnitTilesProdPositive(tiles[..n], shapeM[..n]);
      MulAtLeast(UnitTilesProd(tiles[..n], shapeM[..n]), if shapeM[n] == 1 then tiles[n] else 1);
    }
  }

  /** A zero tile on an axis where the array has length 1 makes the
      multiplier `r` zero. */
  lemma {:induction false} UnitTilesProdZero(tiles: seq<nat>, shapeM: seq<nat>, j: nat)
    requires |tiles| == |shapeM| && j < |tiles| && shapeM[j] == 1 && tiles[j] == 0
    ensures UnitTilesProd(tiles, shapeM) == 0
    decreases |tiles|
  {
    var n := |tiles| - 1;
    if j < n {
      UnitTilesProdZero(tiles[..n], shapeM[..n], j);
    }
  }

  /** After `make_equal_length`, a zero tile that meets a unit axis of the
      message gives `r == 0`, so the message sent to the parent is `0` times
      its sum over the replicas. */
  lemma MultiplicityZero(tilesIn: seq<nat>, platesIn: seq<nat>, shapeM: seq<nat>, j: nat)
    requires var n := Width(tilesIn, platesIn, shapeM);
      j < n && PadLeft(tilesIn, n)[j] == 0 && PadLeft(shapeM, n)[j] == 1
    ensures Multiplicity(tilesIn, platesIn, shapeM) == 0
  {
    var n := Width(tilesIn, platesIn, shapeM);
    UnitTilesProdZero(PadLeft(tilesIn, n), PadLeft(shapeM, n), j);
  }
}
