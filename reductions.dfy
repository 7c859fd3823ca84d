/** The two reductions the tiling node applies to the replicas of a plate:
    logical `or` for masks (`np.any`) and `+` for messages (`np.sum`), and
    what they preserve: a reduced mask is true somewhere exactly when the
    mask was, a reduced message has the same total as the message, and
    reducing a tiled array gives back the array (masks) or the array times
    the number of replicas (messages). */
module Reductions {
  import opened Shapes
  import opened NdArrays
  import opened Replication

  function Or(a: bool, b: bool): bool { a || b }

  function Add(a: real, b: real): real { a + b }

  /** Index `i` of an axis of `t*n` elements is replica `i / n` of plate `i % n`. */
  lemma SplitIndex(i: nat, t: nat, n: nat)
    requires i < t * n
    ensures exists k: nat, j: nat :: k < t && j < n && Block(k, j, t, n) == i
  {
    var k, j := i / n, i % n;
    assert k * n + j == i;
    if k >= t {
      MulMono(k, t, n);
    }
    assert Block(k, j, t, n) == i;
  }

  // ------------------------------------------------------------------ masks

  lemma {:induction false} ZipOrAny(x: Tensor<bool>, y: Tensor<bool>, shape: seq<nat>)
    requires HasShape(x, shape) && HasShape(y, shape)
    ensures AnyTrue(Zip(Or, x, y)) <==> AnyTrue(x) || AnyTrue(y)
    decreases |shape|
  {
    if shape != [] {
      var z := Zip(Or, x, y);
      forall i | 0 <= i < shape[0]
        ensures AnyTrue(z.items[i]) <==> AnyTrue(x.items[i]) || AnyTrue(y.items[i])
      {
        ZipOrAny(x.items[i], y.items[i], shape[1..]);
      }
    }
  }

  lemma {:induction false} FoldOrAny(xs: seq<Tensor<bool>>, shape: seq<nat>)
    requires |xs| > 0 && forall k :: 0 <= k < |xs| ==> HasShape(xs[k], shape)
    ensures AnyTrue(Fold(Or, xs)) <==> exists k :: 0 <= k < |xs| && AnyTrue(xs[k])
    decreases |xs|
  {
    if |xs| > 1 {
      FoldOrAny(xs[1..], shape);
      FoldShape(Or, xs[1..], shape);
      ZipOrAny(xs[0], Fold(Or, xs[1..]), shape);
      if exists k :: 0 <= k < |xs| && AnyTrue(xs[k]) {
        var k :| 0 <= k < |xs| && AnyTrue(xs[k]);
        if k > 0 {
          assert xs[1..][k - 1] == xs[k];
        }
      }
    }
  }

  /** The reduced mask is true somewhere exactly when the mask is. */
  lemma {:induction false} ReduceOrAny(m: Tensor<bool>, tiles: seq<nat>, shape: seq<nat>)
    requires |tiles| == |shape| && Positive(tiles)
    requires HasShape(m, Mul(tiles, shape))
    ensures AnyTrue(Reduce(m, tiles, shape, Or)) <==> AnyTrue(m)
    decreases |shape|
  {
    if shape != [] {
      assert Mul(tiles, shape)[1..] == Mul(tiles[1..], shape[1..]);
      var ms := Inner(m, tiles, shape, Or);
      forall i | 0 <= i < tiles[0] * shape[0]
        ensures HasShape(ms[i], shape[1..]) && (AnyTrue(ms[i]) <==> AnyTrue(m.items[i]))
      {
        ReduceShape(m.items[i], tiles[1..], shape[1..], Or);
        ReduceOrAny(m.items[i], tiles[1..], shape[1..]);
      }
      ReduceOrAnyStep(m, tiles, shape);
    }
  }

  /** One axis of the reduction, given the claim for the inner axes. */
  lemma ReduceOrAnyStep(m: Tensor<bool>, tiles: seq<nat>, shape: seq<nat>)
    requires |tiles| == |shape| > 0 && Positive(tiles)
    requires HasShape(m, Mul(tiles, shape))
    requires forall i :: 0 <= i < tiles[0] * shape[0] ==>
               HasShape(Inner(m, tiles, shape, Or)[i], shape[1..]) &&
               (AnyTrue(Inner(m, tiles, shape, Or)[i]) <==> AnyTrue(m.items[i]))
    ensures AnyTrue(Reduce(m, tiles, shape, Or)) <==> AnyTrue(m)
  {
    if AnyTrue(m) {
      ReduceOrKeepsTrue(m, tiles, shape);
    } else if AnyTrue(Reduce(m, tiles, shape, Or)) {
      ReduceOrAddsNoTrue(m, tiles, shape);
    }
  }

  /** A true element of the mask survives the reduction. */
  lemma ReduceOrKeepsTrue(m: Tensor<bool>, tiles: seq<nat>, shape: seq<nat>)
    requires |tiles| == |shape| > 0 && Positive(tiles)
    requires HasShape(m, Mul(tiles, shape))
    requires forall i :: 0 <= i < tiles[0] * shape[0] ==>
               HasShape(Inner(m, tiles, shape, Or)[i], shape[1..]) &&
               (AnyTrue(Inner(m, tiles, shape, Or)[i]) <==> AnyTrue(m.items[i]))
    requires AnyTrue(m)
    ensures AnyTrue(Reduce(m, tiles, shape, Or))
  {
    var t, n := tiles[0], shape[0];
    var r := Reduce(m, tiles, shape, Or);
    var i :| 0 <= i < |m.items| && AnyTrue(m.items[i]);
    SplitIndex(i, t, n);
    var k: nat, j: nat :| k < t && j < n && Block(k, j, t, n) == i;
    ReduceOrAt(m, tiles, shape, j);
    assert 0 <= j < |r.items| && AnyTrue(r.items[j]);
  }

  /** A true element of the reduced mask comes from a true replica. */
  lemma ReduceOrAddsNoTrue(m: Tensor<bool>, tiles: seq<nat>, shape: seq<nat>)
    requires |tiles| == |shape| > 0 && Positive(tiles)
    requires HasShape(m, Mul(tiles, shape))
    requires forall i :: 0 <= i < tiles[0] * shape[0] ==>
               HasShape(Inner(m, tiles, shape, Or)[i], shape[1..]) &&
               (AnyTrue(Inner(m, tiles, shape, Or)[i]) <==> AnyTrue(m.items[i]))
    requires AnyTrue(Reduce(m, tiles, shape, Or))
    ensures AnyTrue(m)
  {
    var r := Reduce(m, tiles, shape, Or);
    ReduceShape(m, tiles, shape, Or);
    var j :| 0 <= j < |r.items| && AnyTrue(r.items[j]);
    ReduceOrAt(m, tiles, shape, j);
  }

  /** Plate `j` of the reduced mask is the `or` of its replicas. */
  lemma ReduceOrAt(m: Tensor<bool>, tiles: seq<nat>, shape: seq<nat>, j: nat)
    requires |tiles| == |shape| > 0 && Positive(tiles) && j < shape[0]
    requires HasShape(m, Mul(tiles, shape))
    requires forall i :: 0 <= i < tiles[0] * shape[0] ==>
               HasShape(Inner(m, tiles, shape, Or)[i], shape[1..]) &&
               (AnyTrue(Inner(m, tiles, shape, Or)[i]) <==> AnyTrue(m.items[i]))
    ensures Reduce(m, tiles, shape, Or).Stack? && |Reduce(m, tiles, shape, Or).items| == shape[0]
    ensures AnyTrue(Reduce(m, tiles, shape, Or).items[j]) <==>
            exists k :: 0 <= k < tiles[0] && AnyTrue(m.items[Block(k, j, tiles[0], shape[0])])
  {
    var t, n := tiles[0], shape[0];
    var ms := Inner(m, tiles, shape, Or);
    ReduceUnfold(m, tiles, shape, Or, j);
    var xs := Replicas(ms, t, n, j);
    ReplicaShapes(ms, shape[1..], t, n, j);
    FoldOrAny(xs, shape[1..]);
  }

  /** The replicas of plate `j` in a list of arrays of one shape have that
      shape, and replica `k` is the array at `Block(k, j, t, n)`. */
  lemma ReplicaShapes<T>(ms: seq<Tensor<T>>, sh: seq<nat>, t: nat, n: nat, j: nat)
    requires |ms| == t * n && j < n
    requires forall i :: 0 <= i < t * n ==> HasShape(ms[i], sh)
    ensures forall k :: 0 <= k < t ==>
      HasShape(Replicas(ms, t, n, j)[k], sh) && Replicas(ms, t, n, j)[k] == ms[Block(k, j, t, n)]
  {
    forall k | 0 <= k < t
      ensures HasShape(Replicas(ms, t, n, j)[k], sh) && Replicas(ms, t, n, j)[k] == ms[Block(k, j, t, n)]
    {
      ReplicasAt(ms, t, n, j, k);
    }
  }

  // --------------------------------------------------------------- messages

  function SumSeq(s: seq<real>): real {
    if s == [] then 0.0 else s[0] + SumSeq(s[1..])
  }

  /** Sum of all elements (`np.sum` without an axis). */
  function Total(x: Tensor<real>): real
    decreases x
  {
    match x
    case Scalar(v) => v
    case Stack(items) => SumSeq(seq(|items|, i requires 0 <= i < |items| => Total(items[i])))
  }

  function Totals(xs: seq<Tensor<real>>): (r: seq<real>)
    ensures |r| == |xs| && forall k :: 0 <= k < |xs| ==> r[k] == Total(xs[k])
  {
    seq(|xs|, k requires 0 <= k < |xs| => Total(xs[k]))
  }

  /** The total of a stack is the sum of its items' totals. */
  lemma TotalStack(x: Tensor<real>)
    requires x.Stack?
    ensures Total(x) == SumSeq(Totals(x.items))
  {
    assert Totals(x.items) == seq(|x.items|, i requires 0 <= i < |x.items| => Total(x.items[i]));
  }

  /** Every element multiplied by `c`. */
  function Scale(c: real, x: Tensor<real>): Tensor<real>
    decreases x
  {
    match x
    case Scalar(v) => Scalar(c * v)
    case Stack(items) => Stack(seq(|items|, i requires 0 <= i < |items| => Scale(c, items[i])))
  }

  lemma {:induction false} SumSeqAdd(a: seq<real>, b: seq<real>, c: seq<real>)
    requires |a| == |b| == |c| && forall i :: 0 <= i < |c| ==> c[i] == a[i] + b[i]
    ensures SumSeq(c) == SumSeq(a) + SumSeq(b)
    decreases |c|
  {
    if c != [] {
      SumSeqAdd(a[1..], b[1..], c[1..]);
    }
  }

  lemma {:induction false} SumSeqScale(c: real, a: seq<real>, b: seq<real>)
    requires |a| == |b| && forall i :: 0 <= i < |b| ==> b[i] == c * a[i]
    ensures SumSeq(b) == c * SumSeq(a)
    decreases |b|
  {
    if b != [] {
      SumSeqScale(c, a[1..], b[1..]);
    }
  }

  lemma {:induction false} SumSeqAppend(a: seq<real>, b: seq<real>)
    ensures SumSeq(a + b) == SumSeq(a) + SumSeq(b)
    decreases |a|
  {
    if a != [] {
      assert (a + b)[1..] == a[1..] + b;
      SumSeqAppend(a[1..], b);
    } else {
      assert a + b == b;
    }
  }

  lemma {:induction false} SumSeqZero(a: seq<real>)
    requires forall i :: 0 <= i < |a| ==> a[i] == 0.0
    ensures SumSeq(a) == 0.0
    decreases |a|
  {
    if a != [] {
      SumSeqZero(a[1..]);
    }
  }

  /** Summing the replicas of every plate position and then the positions
      adds up every element once. */
  lemma {:induction false} SumBlocks(s: seq<real>, t: nat, n: nat)
    requires |s| == t * n
    ensures SumSeq(seq(n, j requires 0 <= j < n => SumSeq(Replicas(s, t, n, j)))) == SumSeq(s)
    decreases t
  {
    var cols := seq(n, j requires 0 <= j < n => SumSeq(Replicas(s, t, n, j)));
    if t == 0 {
      SumSeqZero(cols);
    } else {
      MulAtLeast(t, n);
      var rest := s[n..];
      var restCols := seq(n, j requires 0 <= j < n => SumSeq(Replicas(rest, t - 1, n, j)));
      SumBlocks(rest, t - 1, n);
      SumSeqAdd(s[..n], restCols, cols);
      SumSeqAppend(s[..n], rest);
      assert s[..n] + rest == s;
    }
  }

  lemma {:induction false} ZipAddTotal(x: Tensor<real>, y: Tensor<real>, shape: seq<nat>)
    requires HasShape(x, shape) && HasShape(y, shape)
    ensures Total(Zip(Add, x, y)) == Total(x) + Total(y)
    decreases |shape|
  {
    if shape != [] {
      var z := Zip(Add, x, y);
      forall i | 0 <= i < shape[0] ensures Total(z.items[i]) == Total(x.items[i]) + Total(y.items[i]) {
        ZipAddTotal(x.items[i], y.items[i], shape[1..]);
      }
      SumSeqAdd(Totals(x.items), Totals(y.items), Totals(z.items));
      assert Totals(z.items) == seq(|z.items|, i requires 0 <= i < |z.items| => Total(z.items[i]));
      assert Totals(x.items) == seq(|x.items|, i requires 0 <= i < |x.items| => Total(x.items[i]));
      assert Totals(y.items) == seq(|y.items|, i requires 0 <= i < |y.items| => Total(y.items[i]));
    }
  }

  lemma {:induction false} FoldAddTotal(xs: seq<Tensor<real>>, shape: seq<nat>)
    requires |xs| > 0 && forall k :: 0 <= k < |xs| ==> HasShape(xs[k], shape)
    ensures Total(Fold(Add, xs)) == SumSeq(Totals(xs))
    decreases |xs|
  {
    if |xs| > 1 {
      FoldAddTotal(xs[1..], shape);
      FoldShape(Add, xs[1..], shape);
      ZipAddTotal(xs[0], Fold(Add, xs[1..]), shape);
      assert Totals(xs)[1..] == Totals(xs[1..]);
    } else {
      assert SumSeq(Totals(xs)[1..]) == 0.0;
    }
  }

  /** Summing the replicas keeps the total of the message. */
  lemma {:induction false} ReduceAddTotal(m: Tensor<real>, tiles: seq<nat>, shape: seq<nat>)
    requires |tiles| == |shape| && Positive(tiles)
    requires HasShape(m, Mul(tiles, shape))
    ensures Total(Reduce(m, tiles, shape, Add)) == Total(m)
    decreases |shape|
  {
    if shape != [] {
      var t, n := tiles[0], shape[0];
      assert Mul(tiles, shape)[1..] == Mul(tiles[1..], shape[1..]);
      var ms := Inner(m, tiles, shape, Add);
      var r := Reduce(m, tiles, shape, Add);
      ReduceShape(m, tiles, shape, Add);
      forall i | 0 <= i < t * n
        ensures HasShape(ms[i], shape[1..]) && Total(ms[i]) == Total(m.items[i])
      {
        ReduceShape(m.items[i], tiles[1..], shape[1..], Add);
        ReduceAddTotal(m.items[i], tiles[1..], shape[1..]);
      }
      var totals := Totals(m.items);
      forall j | 0 <= j < n
        ensures Total(r.items[j]) == SumSeq(Replicas(totals, t, n, j))
      {
        ReduceAddRow(m, tiles, shape, j);
      }
      SumBlocks(totals, t, n);
      assert seq(|r.items|, j requires 0 <= j < |r.items| => Total(r.items[j])) ==
             seq(n, j requires 0 <= j < n => SumSeq(Replicas(totals, t, n, j)));
      assert totals == seq(|m.items|, i requires 0 <= i < |m.items| => Total(m.items[i]));
    }
  }

  /** One plate position of the top axis: its total is the sum of the
      totals of its replicas, given that the inner reductions keep totals. */
  lemma ReduceAddRow(m: Tensor<real>, tiles: seq<nat>, shape: seq<nat>, j: nat)
    requires |tiles| == |shape| > 0 && Positive(tiles) && j < shape[0]
    requires HasShape(m, Mul(tiles, shape))
    requires forall i :: 0 <= i < tiles[0] * shape[0] ==>
               HasShape(Inner(m, tiles, shape, Add)[i], shape[1..]) &&
               Total(Inner(m, tiles, shape, Add)[i]) == Total(m.items[i])
    ensures |m.items| == tiles[0] * shape[0]
    ensures Total(Reduce(m, tiles, shape, Add).items[j]) == SumSeq(Replicas(Totals(m.items), tiles[0], shape[0], j))
  {
    var t, n := tiles[0], shape[0];
    var ms := Inner(m, tiles, shape, Add);
    var totals := Totals(m.items);
    ReduceUnfold(m, tiles, shape, Add, j);
    var xs := Replicas(ms, t, n, j);
    ReplicaTotals(ms, m.items, shape[1..], t, n, j);
    FoldAddTotal(xs, shape[1..]);
  }

  /** The replicas of plate `j` in a list of arrays whose totals match those
      of `items` have the totals of the replicas of `j` in `items`. */
  lemma ReplicaTotals(ms: seq<Tensor<real>>, items: seq<Tensor<real>>, sh: seq<nat>, t: nat, n: nat, j: nat)
    requires |ms| == t * n && |items| == t * n && j < n
    requires forall i :: 0 <= i < t * n ==> HasShape(ms[i], sh) && Total(ms[i]) == Total(items[i])
    ensures forall k :: 0 <= k < t ==> HasShape(Replicas(ms, t, n, j)[k], sh)
    ensures Totals(Replicas(ms, t, n, j)) == Replicas(Totals(items), t, n, j)
  {
    var xs := Replicas(ms, t, n, j);
    var totals := Totals(items);
    forall k | 0 <= k < t
      ensures HasShape(xs[k], sh) && Totals(xs)[k] == Replicas(totals, t, n, j)[k]
    {
      ReplicasAt(ms, t, n, j, k);
      ReplicasAt(totals, t, n, j, k);
    }
  }

  lemma {:induction false} ScaleShape(c: real, x: Tensor<real>, shape: seq<nat>)
    requires HasShape(x, shape)
    ensures HasShape(Scale(c, x), shape)
    decreases |shape|
  {
    if shape != [] {
      forall i | 0 <= i < shape[0] ensures HasShape(Scale(c, x).items[i], shape[1..]) {
        ScaleShape(c, x.items[i], shape[1..]);
      }
    }
  }

  /** Scaling multiplies the total. */
  lemma {:induction false} ScaleTotal(c: real, x: Tensor<real>)
    ensures Total(Scale(c, x)) == c * Total(x)
    decreases x
  {
    if x.Stack? {
      forall i | 0 <= i < |x.items| ensures Total(Scale(c, x.items[i])) == c * Total(x.items[i]) {
        ScaleTotal(c, x.items[i]);
      }
      ScaleTotalStack(c, x);
    }
  }

  lemma ScaleTotalStack(c: real, x: Tensor<real>)
    requires x.Stack?
    requires forall i :: 0 <= i < |x.items| ==> Total(Scale(c, x.items[i])) == c * Total(x.items[i])
    ensures Total(Scale(c, x)) == c * Total(x)
  {
    ScaleItems(c, x);
    var y := Scale(c, x);
    SumTotalsScale(c, x.items, y.items);
    TotalStack(x);
    TotalStack(y);
    MulEq(c, SumSeq(Totals(x.items)), Total(x));
  }

  /** A scaled stack is the stack of the scaled items. */
  lemma ScaleItems(c: real, x: Tensor<real>)
    requires x.Stack?
    ensures Scale(c, x).Stack? && |Scale(c, x).items| == |x.items|
    ensures forall i :: 0 <= i < |x.items| ==> Scale(c, x).items[i] == Scale(c, x.items[i])
  {
  }

  /** Items whose totals are `c` times those of `xs` sum to `c` times their sum. */
  lemma SumTotalsScale(c: real, xs: seq<Tensor<real>>, ys: seq<Tensor<real>>)
    requires |xs| == |ys|
    requires forall i :: 0 <= i < |ys| ==> Total(ys[i]) == c * Total(xs[i])
    ensures SumSeq(Totals(ys)) == c * SumSeq(Totals(xs))
  {
    SumSeqScale(c, Totals(xs), Totals(ys));
  }

  /** Equal factors give equal products (spelled out once, so that callers
      need no reasoning about `*`). */
  lemma MulEq(c: real, u: real, v: real)
    requires u == v
    ensures c * u == c * v
  {
  }

  /** Arrays with the same total keep the same total once scaled. */
  lemma ScaleTotalEq(c: real, a: Tensor<real>, b: Tensor<real>)
    requires Total(a) == Total(b)
    ensures Total(Scale(c, a)) == Total(Scale(c, b))
  {
    var t := Total(a);
    ScaleTotalOf(c, a, t);
    ScaleTotalOf(c, b, t);
  }

  /** `ScaleTotal` for an array whose total is known to be `t`. */
  lemma ScaleTotalOf(c: real, x: Tensor<real>, t: real)
    requires Total(x) == t
    ensures Total(Scale(c, x)) == c * t
  {
    ScaleTotal(c, x);
  }

  // ------------------------------------------------------------ one plate axis

  /** Mask of one plate axis of `t*n` elements: plate `j` is on exactly when
      one of its replicas `k*n + j` is. */
  lemma MaskOneAxis(m: Tensor<bool>, t: nat, n: nat, j: nat)
    requires t > 0 && j < n && HasShape(m, Mul([t], [n]))
    ensures HasShape(Reduce(m, [t], [n], Or), [n])
    ensures AnyTrue(Reduce(m, [t], [n], Or).items[j]) <==>
            exists k :: 0 <= k < t && AnyTrue(m.items[Block(k, j, t, n)])
  {
    ReduceShape(m, [t], [n], Or);
    assert Inner(m, [t], [n], Or) == m.items;
    ReduceOrAt(m, [t], [n], j);
  }

  /** Message of one plate axis of `t*n` elements: plate `j` receives the sum
      of its replicas `k*n + j`. */
  lemma MessageOneAxis(m: Tensor<real>, t: nat, n: nat, j: nat)
    requires t > 0 && j < n && HasShape(m, Mul([t], [n]))
    ensures HasShape(Reduce(m, [t], [n], Add), [n])
    ensures Total(Reduce(m, [t], [n], Add).items[j]) ==
            SumSeq(seq(t, k requires 0 <= k < t => Total(m.items[Block(k, j, t, n)])))
  {
    ReduceOneAxis(m, t, n, Add, j);
    assert Mul([t], [n]) == [t * n];
    var xs := Replicas(m.items, t, n, j);
    ReplicaShapes(m.items, [], t, n, j);
    FoldAddTotal(xs, []);
    ReplicaTotalsAt(m.items, t, n, j);
  }

  /** The totals of the replicas of plate `j`, listed by replica. */
  lemma ReplicaTotalsAt(items: seq<Tensor<real>>, t: nat, n: nat, j: nat)
    requires |items| == t * n && j < n
    ensures Totals(Replicas(items, t, n, j)) == seq(t, k requires 0 <= k < t => Total(items[Block(k, j, t, n)]))
  {
    forall k | 0 <= k < t
      ensures Totals(Replicas(items, t, n, j))[k] == Total(items[Block(k, j, t, n)])
    {
      ReplicasAt(items, t, n, j, k);
    }
  }

  // ---------------------------------------------------- tiling, then reducing

  lemma {:induction false} ZipSelf<T>(op: (T, T) -> T, y: Tensor<T>)
    requires forall a :: op(a, a) == a
    ensures Zip(op, y, y) == y
    decreases y
  {
    if y.Stack? {
      forall i | 0 <= i < |y.items| ensures Zip(op, y.items[i], y.items[i]) == y.items[i] {
        ZipSelf(op, y.items[i]);
      }
    }
  }

  lemma {:induction false} FoldSame<T>(op: (T, T) -> T, xs: seq<Tensor<T>>, y: Tensor<T>)
    requires forall a :: op(a, a) == a
    requires |xs| > 0 && forall k :: 0 <= k < |xs| ==> xs[k] == y
    ensures Fold(op, xs) == y
    decreases |xs|
  {
    if |xs| > 1 {
      FoldSame(op, xs[1..], y);
      ZipSelf(op, y);
    }
  }

  /** With an idempotent combination (`or`), reducing a tiled array gives
      the array back: the mask sent to the parent of a tiled mask is the
      parent's mask. */
  lemma {:induction false} ReduceTile<T>(x: Tensor<T>, tiles: seq<nat>, shape: seq<nat>, op: (T, T) -> T)
    requires forall a :: op(a, a) == a
    requires HasShape(x, shape) && |tiles| == |shape| && Positive(tiles)
    ensures HasShape(Tile(x, tiles), Mul(tiles, shape))
    ensures Reduce(Tile(x, tiles), tiles, shape, op) == x
    decreases |shape|
  {
    TileShape(x, shape, tiles);
    if shape != [] {
      var t, n := tiles[0], shape[0];
      var y := Tile(x, tiles);
      assert Mul(tiles, shape)[1..] == Mul(tiles[1..], shape[1..]);
      var ms := Inner(y, tiles, shape, op);
      forall i | 0 <= i < t * n ensures ms[i] == x.items[i % n] {
        TileShape(x.items[i % n], shape[1..], tiles[1..]);
        ReduceTile(x.items[i % n], tiles[1..], shape[1..], op);
      }
      var r := Reduce(y, tiles, shape, op);
      forall j | 0 <= j < n ensures r.items[j] == x.items[j] {
        ReduceTileRow(y, x, tiles, shape, op, j);
      }
      assert r.items == x.items;
    }
  }

  /** One plate position of the top axis of a tiled array: every replica
      is the original sub-array, so combining them gives it back. */
  lemma ReduceTileRow<T>(y: Tensor<T>, x: Tensor<T>, tiles: seq<nat>, shape: seq<nat>, op: (T, T) -> T, j: nat)
    requires forall a :: op(a, a) == a
    requires |tiles| == |shape| > 0 && Positive(tiles) && j < shape[0]
    requires HasShape(y, Mul(tiles, shape)) && HasShape(x, shape)
    requires forall i :: 0 <= i < tiles[0] * shape[0] ==> Inner(y, tiles, shape, op)[i] == x.items[i % shape[0]]
    ensures Reduce(y, tiles, shape, op).Stack? && |Reduce(y, tiles, shape, op).items| == shape[0]
    ensures Reduce(y, tiles, shape, op).items[j] == x.items[j]
  {
    var t, n := tiles[0], shape[0];
    ReduceUnfold(y, tiles, shape, op, j);
    var xs := Replicas(Inner(y, tiles, shape, op), t, n, j);
    ReplicasPeriodic(Inner(y, tiles, shape, op), x.items, t, n, j);
    FoldSame(op, xs, x.items[j]);
  }

  /** In a sequence that repeats `xs` with period `n`, every replica of
      position `j` is `xs[j]`. */
  lemma ReplicasPeriodic<T>(ms: seq<T>, xs: seq<T>, t: nat, n: nat, j: nat)
    requires |ms| == t * n && |xs| == n && j < n
    requires forall i :: 0 <= i < t * n ==> ms[i] == xs[i % n]
    ensures forall k :: 0 <= k < t ==> Replicas(ms, t, n, j)[k] == xs[j]
  {
    forall k | 0 <= k < t ensures Replicas(ms, t, n, j)[k] == xs[j] {
      ReplicasAt(ms, t, n, j, k);
      BlockIndex(k, j, t, n);
    }
  }

  lemma {:induction false} ScaleOne(x: Tensor<real>)
    ensures Scale(1.0, x) == x
    decreases x
  {
    if x.Stack? {
      forall i | 0 <= i < |x.items| ensures Scale(1.0, x.items[i]) == x.items[i] {
        ScaleOne(x.items[i]);
      }
    }
  }

  lemma CastMul(a: nat, b: nat)
    ensures (a * b) as real == (a as real) * (b as real)
  {
    if a > 0 {
      CastMul(a - 1, b);
      assert a * b == (a - 1) * b + b;
    }
  }

  lemma ProdCast(tiles: seq<nat>)
    requires tiles != []
    ensures Prod(tiles) as real == (tiles[0] as real) * (Prod(tiles[1..]) as real)
  {
    CastMul(tiles[0], Prod(tiles[1..]));
  }

  lemma {:induction false} ScaleScale(a: real, b: real, c: real, x: Tensor<real>)
    requires c == a * b
    ensures Scale(a, Scale(b, x)) == Scale(c, x)
    decreases x
  {
    if x.Stack? {
      forall i | 0 <= i < |x.items| ensures Scale(a, Scale(b, x.items[i])) == Scale(c, x.items[i]) {
        ScaleScale(a, b, c, x.items[i]);
      }
    } else {
      var v := x.value;
      var w := Scale(b, x);
      assert w.Scalar? && w.value == b * v;
      var u := Scale(a, w);
      assert u.Scalar? && u.value == a * (b * v);
      var z := Scale(c, x);
      assert z.Scalar? && z.value == c * v;
      assert a * (b * v) == c * v;
      assert u.value == z.value;
    }
  }

  /** Scaling by the first tile and then by the product of the others is
      scaling by the product of all tiles. */
  lemma ScaleProd(tiles: seq<nat>, y: Tensor<real>)
    requires tiles != []
    ensures Scale(tiles[0] as real, Scale(Prod(tiles[1..]) as real, y)) == Scale(Prod(tiles) as real, y)
  {
    ProdCast(tiles);
    ScaleScale(tiles[0] as real, Prod(tiles[1..]) as real, Prod(tiles) as real, y);
  }

  lemma {:induction false} ZipAddScale(c: real, y: Tensor<real>)
    ensures Zip(Add, y, Scale(c, y)) == Scale(c + 1.0, y)
    decreases y
  {
    if y.Stack? {
      forall i | 0 <= i < |y.items| ensures Zip(Add, y.items[i], Scale(c, y.items[i])) == Scale(c + 1.0, y.items[i]) {
        ZipAddScale(c, y.items[i]);
      }
    } else {
      var v := y.value;
      assert Scale(c, y).Scalar? && Scale(c, y).value == c * v;
      assert Scale(c + 1.0, y).Scalar? && Scale(c + 1.0, y).value == (c + 1.0) * v;
      assert Zip(Add, y, Scale(c, y)).value == v + c * v;
    }
  }

  /** Adding up `|xs|` copies of `y` multiplies it by `|xs|`. */
  lemma {:induction false} FoldAddSame(xs: seq<Tensor<real>>, y: Tensor<real>)
    requires |xs| > 0 && forall k :: 0 <= k < |xs| ==> xs[k] == y
    ensures Fold(Add, xs) == Scale(|xs| as real, y)
    decreases |xs|
  {
    if |xs| > 1 {
      FoldAddSame(xs[1..], y);
      ZipAddScale((|xs| - 1) as real, y);
    } else {
      ScaleOne(y);
    }
  }

  /** Summing the replicas of a tiled message gives the message times the
      number of replicas. */
  lemma {:induction false} ReduceTileAdd(x: Tensor<real>, tiles: seq<nat>, shape: seq<nat>)
    requires HasShape(x, shape) && |tiles| == |shape| && Positive(tiles)
    ensures HasShape(Tile(x, tiles), Mul(tiles, shape))
    ensures Reduce(Tile(x, tiles), tiles, shape, Add) == Scale(Prod(tiles) as real, x)
    decreases |shape|
  {
    TileShape(x, shape, tiles);
    if shape == [] {
      ScaleOne(x);
    } else {
      var t, n := tiles[0], shape[0];
      var p := Prod(tiles[1..]);
      var y := Tile(x, tiles);
      assert Mul(tiles, shape)[1..] == Mul(tiles[1..], shape[1..]);
      var ms := Inner(y, tiles, shape, Add);
      forall i | 0 <= i < t * n ensures ms[i] == Scale(p as real, x.items[i % n]) {
        TileShape(x.items[i % n], shape[1..], tiles[1..]);
        ReduceTileAdd(x.items[i % n], tiles[1..], shape[1..]);
      }
      var r := Reduce(y, tiles, shape, Add);
      var s := Scale(Prod(tiles) as real, x);
      forall j | 0 <= j < n ensures r.items[j] == s.items[j] {
        ReduceTileAddAt(x, tiles, shape, j);
      }
      assert r.items == s.items;
    }
  }

  /** One plate of `ReduceTileAdd`, given the claim for the inner axes. */
  lemma ReduceTileAddAt(x: Tensor<real>, tiles: seq<nat>, shape: seq<nat>, j: nat)
    requires HasShape(x, shape) && |tiles| == |shape| > 0 && Positive(tiles) && j < shape[0]
    requires HasShape(Tile(x, tiles), Mul(tiles, shape))
    requires forall i :: 0 <= i < tiles[0] * shape[0] ==>
               Inner(Tile(x, tiles), tiles, shape, Add)[i] == Scale(Prod(tiles[1..]) as real, x.items[i % shape[0]])
    ensures Reduce(Tile(x, tiles), tiles, shape, Add).Stack?
    ensures |Reduce(Tile(x, tiles), tiles, shape, Add).items| == shape[0]
    ensures Reduce(Tile(x, tiles), tiles, shape, Add).items[j] == Scale(Prod(tiles) as real, x.items[j])
  {
    var t, n, p := tiles[0], shape[0], Prod(tiles[1..]);
    var ms := Inner(Tile(x, tiles), tiles, shape, Add);
    ReduceUnfold(Tile(x, tiles), tiles, shape, Add, j);
    var xs := Replicas(ms, t, n, j);
    var ys := seq(n, i requires 0 <= i < n => Scale(p as real, x.items[i]));
    assert forall i :: 0 <= i < t * n ==> ms[i] == ys[i % n];
    ReplicasPeriodic(ms, ys, t, n, j);
    FoldAddSame(xs, Scale(p as real, x.items[j]));
    ScaleProd(tiles, x.items[j]);
  }

  /** Tiling multiplies the total by the number of replicas `c`. */
  lemma TileTotal(x: Tensor<real>, tiles: seq<nat>, shape: seq<nat>, c: real)
    requires HasShape(x, shape) && |tiles| == |shape| && Positive(tiles)
    requires c == Prod(tiles) as real
    ensures Total(Tile(x, tiles)) == c * Total(x)
  {
    ReduceTileAdd(x, tiles, shape);
    ReduceAddTotal(Tile(x, tiles), tiles, shape);
    ScaleTotal(c, x);
  }

  /** Tiling keeps whether some element is true. */
  lemma TileAny(x: Tensor<bool>, tiles: seq<nat>, shape: seq<nat>)
    requires HasShape(x, shape) && |tiles| == |shape| && Positive(tiles)
    ensures AnyTrue(Tile(x, tiles)) <==> AnyTrue(x)
  {
    ReduceTile(x, tiles, shape, Or);
    ReduceOrAny(Tile(x, tiles), tiles, shape);
  }
}
