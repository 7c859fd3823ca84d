/** Moments of the `tile` node (`_Tile._compute_moments` in
    `bayespy/inference/vmp/nodes/deterministic.py`): every moment of the
    parent with at least one axis is replicated with `np.tile`; the tile
    counts, extended with ones over the variable axes, are aligned on the
    right with the moment's axes and an axis of length 0 or 1 (a broadcast
    axis) is not replicated. */
module TileMoments {
  import opened Shapes
  import opened NdArrays
  import opened Replication
  import opened TilePlates

  /** The repetition counts passed to `np.tile` for a moment of shape
      `shapeU` whose variable has `dimLen` axes. */
  function TileReps(shapeU: seq<nat>, tiles: seq<nat>, dimLen: nat): (r: seq<nat>)
    ensures |r| == |shapeU|
    ensures forall j :: 0 <= j < |shapeU| && shapeU[j] <= 1 ==> r[j] == 1
  {
    var all := tiles + Ones(dimLen);
    var nd := if |all| < |shapeU| then |all| else |shapeU|;
    var last := PadLeft(all[|all| - nd..], |shapeU|);
    seq(|shapeU|, j requires 0 <= j < |shapeU| => if shapeU[j] > 1 then last[j] else 1)
  }

  /** The counts are the tiles aligned on the right with the moment's
      plate axes (the axes before the last `dimLen`): surplus leading tiles
      are dropped, the variable axes, axes without a tile and axes of
      length 0 or 1 get 1. */
  lemma TileRepsAligned(shapeU: seq<nat>, tiles: seq<nat>, dimLen: nat, j: nat)
    requires j < |shapeU|
    ensures TileReps(shapeU, tiles, dimLen)[j] ==
            if shapeU[j] > 1 && j + dimLen < |shapeU| && j + dimLen + |tiles| >= |shapeU|
            then tiles[j + dimLen + |tiles| - |shapeU|] else 1
  {
    var all := tiles + Ones(dimLen);
    var n := |shapeU|;
    LastAt(all, n, j);
    if j + |all| >= n {
      var x := j + |all| - n;
      if x < |tiles| {
        assert all[x] == tiles[x];
      } else {
        assert all[x] == 1;
      }
    }
  }

  lemma LastAt(all: seq<nat>, n: nat, j: nat)
    requires j < n
    ensures var nd := if |all| < n then |all| else n;
      var last := PadLeft(all[|all| - nd..], n);
      |last| == n && last[j] == if j + |all| >= n then all[j + |all| - n] else 1
  {
    var nd := if |all| < n then |all| else n;
    var tail := all[|all| - nd..];
    assert |tail| == nd;
    PadLeftAt(tail, n, j);
  }

  /** One moment of the node: a 0-dimensional moment is passed on as it is,
      any other is tiled by `TileReps`. */
  function TileMoment<T>(u: Array<T>, tiles: seq<nat>, dimLen: nat): (r: Array<T>)
    requires u.Valid()
    ensures r.Valid() && |r.shape| == |u.shape|
    ensures u.shape == [] ==> r == u
    ensures u.shape != [] ==> r.shape == Mul(TileReps(u.shape, tiles, dimLen), u.shape)
    ensures forall j :: 0 <= j < |u.shape| && u.shape[j] <= 1 ==> r.shape[j] == u.shape[j]
  {
    if u.shape == [] then u
    else
      var reps := TileReps(u.shape, tiles, dimLen);
      TileShape(u.elems, u.shape, reps);
      Array(Mul(reps, u.shape), Tile(u.elems, reps))
  }

  /** Every element of the node's moment is the parent's element at the
      index taken modulo the parent's shape. */
  lemma TileMomentAt<T>(u: Array<T>, tiles: seq<nat>, dimLen: nat, idx: seq<nat>)
    requires u.Valid() && InBounds(idx, TileMoment(u, tiles, dimLen).shape)
    ensures InBounds(ModIndex(idx, u.shape), u.shape)
    ensures At(TileMoment(u, tiles, dimLen).elems, TileMoment(u, tiles, dimLen).shape, idx)
            == At(u.elems, u.shape, ModIndex(idx, u.shape))
  {
    if u.shape == [] {
      assert ModIndex(idx, u.shape) == idx;
    } else {
      TileAt(u.elems, u.shape, TileReps(u.shape, tiles, dimLen), idx);
    }
  }

  /** A moment over one plate axis of length `n > 1` and no variable axes,
      tiled `t` times: element `k*n + j` is the parent's element `j`. */
  lemma TileMomentOneAxis<T>(u: Array<T>, t: nat, n: nat, k: nat, j: nat)
    requires u.Valid() && u.shape == [n] && n > 1 && k < t && j < n
    ensures TileMoment(u, [t], 0).shape == [t * n]
    ensures k * n + j < t * n && TileMoment(u, [t], 0).elems.items[k * n + j] == u.elems.items[j]
  {
    assert TileReps([n], [t], 0) == [t];
    TileOneAxis(u.elems, t, n, k, j);
  }

  /** The tile count applied to axis `i` of the parent's plates. */
  function TileOf(p: seq<nat>, tiles: seq<nat>, i: nat): nat
    requires i < |p|
  {
    PadLeft(tiles, Max(|p|, |tiles|))[Max(|p|, |tiles|) - |p| + i]
  }

  /** Axis `i` of the parent's plates and variable dimensions, aligned on
      the right with the node's, is multiplied by its tile count. */
  lemma NodeAxis(p: seq<nat>, tiles: seq<nat>, d: seq<nat>, i: nat)
    requires i < |p| + |d|
    ensures var K := Max(|p|, |tiles|);
      (PlatesFromParent(p, tiles) + d)[K - |p| + i] ==
      (p + d)[i] * (if i < |p| then TileOf(p, tiles, i) else 1)
  {
    var K := Max(|p|, |tiles|);
    if i < |p| {
      PadLeftAt(p, K, K - |p| + i);
    }
  }

  /** The repetition count of axis `j` of a moment whose axes are aligned
      on the right with the parent's plates and variable dimensions. */
  lemma RepsAxis(su: seq<nat>, p: seq<nat>, tiles: seq<nat>, d: seq<nat>, j: nat)
    requires |su| <= |p| + |d| && j < |su|
    ensures var i := |p| + |d| - |su| + j;
      TileReps(su, tiles, |d|)[j] ==
      if su[j] > 1 && i < |p| then TileOf(p, tiles, i) else 1
  {
    var i := |p| + |d| - |su| + j;
    var K := Max(|p|, |tiles|);
    TileRepsAligned(su, tiles, |d|, j);
    if i < |p| {
      PadLeftAt(tiles, K, K - |p| + i);
    }
  }

  /** The arithmetic of one tiled axis: `e` is the moment's axis, `r` its
      repetition count, `v` the parent's axis it broadcasts to and `t` the
      tile count of that axis; the tiled axis `a` is 1 or the node's axis `w`. */
  lemma TiledAxisArith(e: nat, r: nat, v: nat, t: nat, a: nat, w: nat)
    requires e == 1 || e == v
    requires r == if e > 1 then t else 1
    requires a == r * e && w == v * t
    ensures a == 1 || a == w
  {
    if e == 0 {
      assert v * t == 0;
    }
  }

  /** One axis of a moment that broadcasts to the parent's plates and
      variable dimensions broadcasts, after tiling, to the node's. */
  lemma TileAxisCompatible(su: seq<nat>, p: seq<nat>, tiles: seq<nat>, d: seq<nat>, j: nat)
    requires Compatible(su, p + d) && j < |su|
    ensures |su| <= |PlatesFromParent(p, tiles) + d|
    ensures var nodeShape := PlatesFromParent(p, tiles) + d; var a := Mul(TileReps(su, tiles, |d|), su)[j];
      a == 1 || a == nodeShape[|nodeShape| - |su| + j]
  {
    var i := |p| + |d| - |su| + j;
    assert su[j] == 1 || su[j] == (p + d)[i];
    var nodeShape := PlatesFromParent(p, tiles) + d;
    var K := Max(|p|, |tiles|);
    assert |nodeShape| == K + |d|;
    var t := if i < |p| then TileOf(p, tiles, i) else 1;
    NodeAxis(p, tiles, d, i);
    RepsAxis(su, p, tiles, d, j);
    var reps := TileReps(su, tiles, |d|);
    assert |nodeShape| - |su| + j == K - |p| + i;
    TiledAxisArith(su[j], reps[j], (p + d)[i], t, Mul(reps, su)[j], nodeShape[|nodeShape| - |su| + j]);
  }

  /** The tiled shape of a moment that broadcasts to the parent's plates
      and variable dimensions broadcasts to the node's. */
  lemma TileShapeCompatible(su: seq<nat>, p: seq<nat>, tiles: seq<nat>, d: seq<nat>)
    requires Compatible(su, p + d)
    ensures Compatible(Mul(TileReps(su, tiles, |d|), su), PlatesFromParent(p, tiles) + d)
  {
    var r := Mul(TileReps(su, tiles, |d|), su);
    var nodeShape := PlatesFromParent(p, tiles) + d;
    assert |r| == |su| <= |p| + |d| <= |nodeShape|;
    forall j | 0 <= j < |r| ensures r[j] == 1 || r[j] == nodeShape[|nodeShape| - |r| + j] {
      TileAxisCompatible(su, p, tiles, d, j);
    }
  }

  /** A parent moment that broadcasts to the parent's plates and variable
      dimensions becomes a moment that broadcasts to the node's plates
      (`multiply_shapes(plates, tiles)`) and the same variable dimensions. */
  lemma TileMomentCompatible(u: Array<real>, p: seq<nat>, tiles: seq<nat>, d: seq<nat>)
    requires u.Valid() && Compatible(u.shape, p + d)
    ensures Compatible(TileMoment(u, tiles, |d|).shape, PlatesFromParent(p, tiles) + d)
  {
    if u.shape != [] {
      TileShapeCompatible(u.shape, p, tiles, d);
    }
  }

  /** `get_moments` of the tile node: nothing is cached, the moments are
      always computed afresh from the parent's current moments `uX`. */
  function GetMoments(uX: seq<Array<real>>, tiles: seq<nat>, dims: seq<seq<nat>>): (u: seq<Array<real>>)
    requires |dims| == |uX| && forall i :: 0 <= i < |uX| ==> uX[i].Valid()
    ensures |u| == |uX|
    ensures forall i :: 0 <= i < |uX| ==> u[i].Valid() && |u[i].shape| == |uX[i].shape|
  {
    seq(|uX|, i requires 0 <= i < |uX| => TileMoment(uX[i], tiles, |dims[i]|))
  }

  /** Parent moments that broadcast to the parent's plates and dimensions
      give node moments that broadcast to the node's plates and the same
      dimensions. */
  lemma GetMomentsCompatible(uX: seq<Array<real>>, p: seq<nat>, tiles: seq<nat>, dims: seq<seq<nat>>)
    requires |dims| == |uX| && forall i :: 0 <= i < |uX| ==> uX[i].Valid() && Compatible(uX[i].shape, p + dims[i])
    ensures forall i :: 0 <= i < |uX| ==>
      Compatible(GetMoments(uX, tiles, dims)[i].shape, PlatesFromParent(p, tiles) + dims[i])
  {
    forall i | 0 <= i < |uX|
      ensures Compatible(GetMoments(uX, tiles, dims)[i].shape, PlatesFromParent(p, tiles) + dims[i])
    {
      TileMomentCompatible(uX[i], p, tiles, dims[i]);
    }
  }

  /** `_compute_moments`: the moments built one by one and appended to a
      new list. */
  method ComputeMoments(uX: seq<Array<real>>, tiles: seq<nat>, dims: seq<seq<nat>>) returns (u: seq<Array<real>>)
    requires |dims| == |uX| && forall i :: 0 <= i < |uX| ==> uX[i].Valid()
    ensures u == GetMoments(uX, tiles, dims)
  {
    u := [];
    var ind := 0;
    while ind < |uX|
      invariant 0 <= ind <= |uX| && |u| == ind
      invariant forall i :: 0 <= i < ind ==> u[i] == TileMoment(uX[i], tiles, |dims[i]|)
    {
      var ui := uX[ind];
      if |ui.shape| > 0 {
        var reps := TileReps(ui.shape, tiles, |dims[ind]|);
        ui := Array(Mul(reps, ui.shape), Tile(ui.elems, reps));
      }
      u := u + [ui];
      ind := ind + 1;
    }
  }
}
