/** Replicating an array along its axes (`np.tile` with one repetition count
    per axis) and the reverse reduction used by the tiling node: an axis of
    length `t*n` is read as `t` replicas of an axis of length `n` (a reshape
    into a (replica, plate) pair of axes) and the replicas are combined
    element-wise, by `+` for messages and by `or` for masks. */
module Replication {
  import opened Shapes
  import opened NdArrays

  predicate Positive(s: seq<nat>) {
    forall j :: 0 <= j < |s| ==> s[j] > 0
  }

  lemma {:induction false} MulAtLeast(d: int, n: int)
    requires d >= 1 && n >= 0
    ensures d * n >= n
  {
    if d > 1 {
      MulAtLeast(d - 1, n);
      assert d * n == (d - 1) * n + n;
    }
  }

  lemma MulMono(a: int, b: int, n: int)
    requires a >= b && n >= 0
    ensures a * n >= b * n
  {
    if a > b {
      MulGap(a, b, n);
    }
  }

  /** Euclidean division is unique: `q*n + r` with `0 <= r < n` divides back
      to `q` and `r`. */
  lemma DivModUnique(a: int, n: int, q: int, r: int)
    requires n > 0 && 0 <= r < n && a == q * n + r
    ensures a / n == q && a % n == r
  {
    var q', r' := a / n, a % n;
    assert a == q' * n + r' && 0 <= r' < n;
    if q > q' {
      MulGap(q, q', n);
    } else if q < q' {
      MulGap(q', q, n);
    }
  }

  lemma MulGap(p: int, q: int, n: int)
    requires p > q && n >= 0
    ensures p * n - q * n >= n
  {
    MulAtLeast(p - q, n);
    assert (p - q) * n == p * n - q * n;
  }

  /** Position `k*n + j` lies in a block of `t` replicas of length `n`. */
  lemma BlockIndex(k: nat, j: nat, t: nat, n: nat)
    requires k < t && j < n
    ensures k * n + j < t * n
    ensures (k * n + j) % n == j && (k * n + j) / n == k
  {
    MulAtLeast(t - k, n);
    assert (t - k) * n == t * n - k * n;
    DivModUnique(k * n + j, n, k, j);
  }

  /** Position of replica `k` of plate `j` on an axis of `t` blocks of `n`. */
  function Block(k: nat, j: nat, t: nat, n: nat): (i: nat)
    requires k < t && j < n
    ensures i < t * n
  {
    BlockIndex(k, j, t, n);
    k * n + j
  }

  // ---------------------------------------------------------------- tiling

  /** `np.tile(x, reps)` with one repetition count per axis: axis `j` of
      length `n` becomes `reps[j]` consecutive copies of the whole axis. */
  function Tile<T>(x: Tensor<T>, reps: seq<nat>): Tensor<T>
    decreases x
  {
    if reps == [] || x.Scalar? then x
    else
      var n := |x.items|;
      if n == 0 then Stack([])
      else Stack(seq(reps[0] * n, i requires 0 <= i < reps[0] * n => Tile(x.items[i % n], reps[1..])))
  }

  /** Index `idx` reduced axis by axis modulo the shape. */
  function ModIndex(idx: seq<nat>, shape: seq<nat>): (r: seq<nat>)
    requires |idx| == |shape|
    ensures |r| == |shape|
  {
    seq(|shape|, j requires 0 <= j < |shape| => if shape[j] == 0 then 0 else idx[j] % shape[j])
  }

  lemma {:induction false} TileShape<T>(x: Tensor<T>, shape: seq<nat>, reps: seq<nat>)
    requires HasShape(x, shape) && |reps| == |shape|
    ensures HasShape(Tile(x, reps), Mul(reps, shape))
    decreases |shape|
  {
    if shape != [] {
      var n := shape[0];
      assert Mul(reps, shape)[1..] == Mul(reps[1..], shape[1..]);
      if n > 0 {
        forall i | 0 <= i < reps[0] * n
          ensures HasShape(Tile(x, reps).items[i], Mul(reps[1..], shape[1..]))
        {
          TileShape(x.items[i % n], shape[1..], reps[1..]);
        }
      }
    }
  }

  /** Element `idx` of the tiled array is element `idx mod shape` of `x`. */
  lemma {:induction false} TileAt<T>(x: Tensor<T>, shape: seq<nat>, reps: seq<nat>, idx: seq<nat>)
    requires HasShape(x, shape) && |reps| == |shape|
    requires InBounds(idx, Mul(reps, shape))
    ensures HasShape(Tile(x, reps), Mul(reps, shape))
    ensures InBounds(ModIndex(idx, shape), shape)
    ensures At(Tile(x, reps), Mul(reps, shape), idx) == At(x, shape, ModIndex(idx, shape))
    decreases |shape|
  {
    TileShape(x, shape, reps);
    var mi := ModIndex(idx, shape);
    assert InBounds(mi, shape) by {
      forall j | 0 <= j < |shape| ensures mi[j] < shape[j] {
        assert idx[j] < reps[j] * shape[j];
      }
    }
    if shape != [] {
      var n := shape[0];
      assert Mul(reps, shape)[1..] == Mul(reps[1..], shape[1..]);
      assert idx[0] < reps[0] * n;
      TileAt(x.items[idx[0] % n], shape[1..], reps[1..], idx[1..]);
      assert ModIndex(idx[1..], shape[1..]) == mi[1..];
    }
  }

  /** One tiled axis: element `k*n + j` of the result is element `j`. */
  lemma TileOneAxis<T>(x: Tensor<T>, t: nat, n: nat, k: nat, j: nat)
    requires HasShape(x, [n]) && k < t && j < n
    ensures HasShape(Tile(x, [t]), [t * n])
    ensures k * n + j < t * n && Tile(x, [t]).items[k * n + j] == x.items[j]
  {
    TileShape(x, [n], [t]);
    assert Mul([t], [n]) == [t * n];
    BlockIndex(k, j, t, n);
  }

  // ------------------------------------------------------------- reducing

  /** The replicas of plate position `j`: the elements `k*n + j`, `k < t`,
      of a sequence read as `t` consecutive blocks of length `n`. */
  function Replicas<T>(s: seq<T>, t: nat, n: nat, j: nat): (r: seq<T>)
    requires |s| == t * n && j < n
    ensures |r| == t
    decreases t
  {
    if t == 0 then []
    else
      MulAtLeast(t, n);
      [s[j]] + Replicas(s[n..], t - 1, n, j)
  }

  lemma {:induction false} ReplicasAt<T>(s: seq<T>, t: nat, n: nat, j: nat, k: nat)
    requires |s| == t * n && j < n && k < t
    ensures k * n + j < |s| && Replicas(s, t, n, j)[k] == s[k * n + j]
    decreases t
  {
    MulAtLeast(t, n);
    if k > 0 {
      ReplicasAt(s[n..], t - 1, n, j, k - 1);
      assert (k - 1) * n + j + n == k * n + j;
    }
  }

  /** Element-wise combination of a non-empty list of same-shaped arrays. */
  function Fold<T>(op: (T, T) -> T, xs: seq<Tensor<T>>): Tensor<T>
    requires |xs| > 0
    decreases |xs|
  {
    if |xs| == 1 then xs[0] else Zip(op, xs[0], Fold(op, xs[1..]))
  }

  lemma {:induction false} FoldShape<T>(op: (T, T) -> T, xs: seq<Tensor<T>>, shape: seq<nat>)
    requires |xs| > 0 && forall k :: 0 <= k < |xs| ==> HasShape(xs[k], shape)
    ensures HasShape(Fold(op, xs), shape)
    decreases |xs|
  {
    if |xs| > 1 {
      FoldShape(op, xs[1..], shape);
      ZipShape(op, xs[0], Fold(op, xs[1..]), shape);
    }
  }

  /** Reshape every axis of `m` (of length `tiles[j]*shape[j]`) into a
      (replica, plate) pair of axes and combine the replicas with `op`. */
  function Reduce<T>(m: Tensor<T>, tiles: seq<nat>, shape: seq<nat>, op: (T, T) -> T): Tensor<T>
    requires |tiles| == |shape| && Positive(tiles)
    requires HasShape(m, Mul(tiles, shape))
    decreases |shape|
  {
    if shape == [] then m
    else
      var t, n := tiles[0], shape[0];
      assert Mul(tiles, shape)[1..] == Mul(tiles[1..], shape[1..]);
      var ms := seq(t * n, i requires 0 <= i < t * n => Reduce(m.items[i], tiles[1..], shape[1..], op));
      Stack(seq(n, j requires 0 <= j < n => Fold(op, Replicas(ms, t, n, j))))
  }

  /** The replicas of each element, already reduced on the remaining axes. */
  function Inner<T>(m: Tensor<T>, tiles: seq<nat>, shape: seq<nat>, op: (T, T) -> T): (ms: seq<Tensor<T>>)
    requires |tiles| == |shape| > 0 && Positive(tiles)
    requires HasShape(m, Mul(tiles, shape))
    ensures |ms| == tiles[0] * shape[0]
  {
    assert Mul(tiles, shape)[1..] == Mul(tiles[1..], shape[1..]);
    seq(tiles[0] * shape[0], i requires 0 <= i < tiles[0] * shape[0] =>
      Reduce(m.items[i], tiles[1..], shape[1..], op))
  }

  lemma ReduceUnfold<T>(m: Tensor<T>, tiles: seq<nat>, shape: seq<nat>, op: (T, T) -> T, j: nat)
    requires |tiles| == |shape| > 0 && Positive(tiles) && j < shape[0]
    requires HasShape(m, Mul(tiles, shape))
    ensures Reduce(m, tiles, shape, op).Stack?
    ensures |Reduce(m, tiles, shape, op).items| == shape[0]
    ensures Reduce(m, tiles, shape, op).items[j] ==
            Fold(op, Replicas(Inner(m, tiles, shape, op), tiles[0], shape[0], j))
  {
  }

  lemma {:induction false} ReduceShape<T>(m: Tensor<T>, tiles: seq<nat>, shape: seq<nat>, op: (T, T) -> T)
    requires |tiles| == |shape| && Positive(tiles)
    requires HasShape(m, Mul(tiles, shape))
    ensures HasShape(Reduce(m, tiles, shape, op), shape)
    decreases |shape|
  {
    if shape != [] {
      var t, n := tiles[0], shape[0];
      assert Mul(tiles, shape)[1..] == Mul(tiles[1..], shape[1..]);
      var ms := Inner(m, tiles, shape, op);
      forall i | 0 <= i < t * n ensures HasShape(ms[i], shape[1..]) {
        ReduceShape(m.items[i], tiles[1..], shape[1..], op);
      }
      forall j | 0 <= j < n ensures HasShape(Reduce(m, tiles, shape, op).items[j], shape[1..]) {
        ReduceUnfold(m, tiles, shape, op, j);
        var xs := Replicas(ms, t, n, j);
        forall k | 0 <= k < t ensures HasShape(xs[k], shape[1..]) {
          ReplicasAt(ms, t, n, j, k);
        }
        FoldShape(op, xs, shape[1..]);
      }
    }
  }

  /** On one axis of scalars, element `j` of the reduction combines the
      replicas of `j` in the message. */
  lemma ReduceOneAxis<T>(m: Tensor<T>, t: nat, n: nat, op: (T, T) -> T, j: nat)
    requires t > 0 && j < n
    requires HasShape(m, Mul([t], [n]))
    ensures HasShape(Reduce(m, [t], [n], op), [n])
    ensures Reduce(m, [t], [n], op).items[j] == Fold(op, Replicas(m.items, t, n, j))
  {
    ReduceShape(m, [t], [n], op);
    ReduceUnfold(m, [t], [n], op, j);
    assert Inner(m, [t], [n], op) == m.items;
  }
}
