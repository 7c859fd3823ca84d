/** Plates of the `tile` node (`bayespy/inference/vmp/nodes/deterministic.py`,
    function `tile`, class `_Tile`): the node's plates are the parent's
    plates multiplied by the tile counts, aligned on the right, and going
    back to the parent each of the last `len(tiles)` plates is floor-divided
    by its tile count. */
module TilePlates {
  import opened Common
  import opened Shapes
  import opened Replication

  /** `_plates_from_parent`: `multiply_shapes(parent plates, tiles)`. */
  function PlatesFromParent(parentPlates: seq<nat>, tiles: seq<nat>): (r: seq<nat>)
    ensures |r| == Max(|parentPlates|, |tiles|)
  {
    MultiplyShapes(parentPlates, tiles)
  }

  /** Each of the node's plates is the right-aligned parent plate times the
      right-aligned tile, a missing entry counting as 1. */
  lemma PlatesFromParentAt(parentPlates: seq<nat>, tiles: seq<nat>)
    ensures var r := PlatesFromParent(parentPlates, tiles);
      forall j :: 0 <= j < |r| ==> r[j] == PadLeft(parentPlates, |r|)[j] * PadLeft(tiles, |r|)[j]
  {
  }

  /** Floor division of a plate by a tile as numpy performs it on the
      `int64` tiles that `np.ravel` yields: dividing by zero gives 0 (with a
      runtime warning) instead of raising. Written as repeated subtraction;
      `FloorDivIsDiv` shows it is floor division. */
  function FloorDiv(a: nat, t: nat): (r: nat)
    ensures t == 0 ==> r == 0
    ensures t == 1 ==> r == a
    ensures r <= a
    decreases a
  {
    if t == 0 || a < t then 0 else 1 + FloorDiv(a - t, t)
  }

  /** For a positive tile, `FloorDiv` is the quotient of Euclidean division. */
  lemma {:induction false} FloorDivIsDiv(a: nat, t: nat)
    requires t > 0
    ensures FloorDiv(a, t) == a / t
    decreases a
  {
    if a >= t {
      FloorDivIsDiv(a - t, t);
      DivModUnique(a, t, (a - t) / t + 1, (a - t) % t);
    } else {
      DivModUnique(a, t, 0, a);
    }
  }

  /** The result of `_plates_to_parent`: the plates with the last
      `len(tiles)` entries floor-divided by the tiles; `IndexError` when
      there are more tiles than plates. */
  function ParentPlates(plates: seq<nat>, tiles: seq<nat>): (r: Result<seq<nat>>)
    ensures r.Err? <==> |tiles| > |plates|
    ensures r.Err? ==> r.error == IndexError
    ensures r.Ok? ==> |r.value| == |plates|
  {
    if |tiles| > |plates| then Err(IndexError)
    else
      var k := |plates| - |tiles|;
      Ok(seq(|plates|, j requires 0 <= j < |plates| => if j < k then plates[j] else FloorDiv(plates[j], tiles[j - k])))
  }

  /** `_plates_to_parent`, step by step: a copy of the plates in which the
      entries `-len(tiles) .. -1` are replaced one by one. */
  method PlatesToParent(plates: seq<nat>, tiles: seq<nat>) returns (r: Result<seq<nat>>)
    ensures r == ParentPlates(plates, tiles)
  {
    var out := plates;
    var k := |plates| - |tiles|;
    var i := 0;
    while i < |tiles|
      invariant 0 <= i <= |tiles| && |out| == |plates|
      invariant i > 0 ==> k >= 0
      invariant forall j :: 0 <= j < |plates| ==>
                  out[j] == if k <= j < k + i then FloorDiv(plates[j], tiles[j - k]) else plates[j]
    {
      if k + i < 0 {
        assert |tiles| > |plates|;
        assert Err(IndexError) == ParentPlates(plates, tiles);
        return Err(IndexError);
      }
      out := out[k + i := FloorDiv(out[k + i], tiles[i])];
      i := i + 1;
    }
    assert |tiles| <= |plates|;
    var spec := ParentPlates(plates, tiles).value;
    assert forall j :: 0 <= j < |plates| ==> out[j] == spec[j];
    assert out == spec;
    r := Ok(out);
  }

  /** A plate that is an exact multiple of its tile divides back exactly. */
  lemma DivExact(a: nat, t: nat, m: nat)
    requires t > 0 && m == a * t
    ensures FloorDiv(m, t) == a
  {
    DivModUnique(m, t, a, 0);
    FloorDivIsDiv(m, t);
  }

  /** Dividing the tiled plates by the tiles gives back the parent's plates,
      padded with unit plates when there are more tiles than plates. */
  lemma PlatesRoundTrip(p: seq<nat>, tiles: seq<nat>)
    requires Positive(tiles)
    ensures ParentPlates(PlatesFromParent(p, tiles), tiles) == Ok(PadLeft(p, |tiles|))
  {
    var n := Max(|p|, |tiles|);
    var r := ParentPlates(PlatesFromParent(p, tiles), tiles);
    var pp := PadLeft(p, |tiles|);
    assert r.Ok? && |r.value| == |pp| == n;
    forall j | 0 <= j < n ensures r.value[j] == pp[j] {
      RoundTripAt(p, tiles, j);
    }
    assert r.value == pp;
  }

  lemma RoundTripAt(p: seq<nat>, tiles: seq<nat>, j: nat)
    requires Positive(tiles) && j < Max(|p|, |tiles|)
    ensures ParentPlates(PlatesFromParent(p, tiles), tiles).Ok?
    ensures ParentPlates(PlatesFromParent(p, tiles), tiles).value[j] == PadLeft(p, |tiles|)[j]
  {
    var n := Max(|p|, |tiles|);
    var plates := PlatesFromParent(p, tiles);
    var k := n - |tiles|;
    var a := PadLeft(p, n)[j];
    assert PadLeft(p, |tiles|)[j] == a by {
      PadLeftAt(p, |tiles|, j);
      PadLeftAt(p, n, j);
    }
    var b := PadLeft(tiles, n)[j];
    assert plates[j] == a * b;
    PadLeftAt(tiles, n, j);
    if j >= k {
      PositiveAt(tiles, j - k);
      DivBackAt(plates, tiles, j, a);
    } else {
      assert b == 1;
      ParentPlatesAt(plates, tiles, j);
    }
  }

  /** A tiled plate `a * t` divides back to `a`. */
  lemma DivBackAt(plates: seq<nat>, tiles: seq<nat>, j: nat, a: nat)
    requires |tiles| <= |plates| && |plates| - |tiles| <= j < |plates|
    requires tiles[j - (|plates| - |tiles|)] > 0 && plates[j] == a * tiles[j - (|plates| - |tiles|)]
    ensures ParentPlates(plates, tiles).Ok? && ParentPlates(plates, tiles).value[j] == a
  {
    ParentPlatesAt(plates, tiles, j);
    DivExact(a, tiles[j - (|plates| - |tiles|)], plates[j]);
  }

  lemma PositiveAt(tiles: seq<nat>, i: nat)
    requires Positive(tiles) && i < |tiles|
    ensures tiles[i] > 0
  {
  }

  lemma ParentPlatesAt(plates: seq<nat>, tiles: seq<nat>, j: nat)
    requires |tiles| <= |plates| && j < |plates|
    ensures ParentPlates(plates, tiles).Ok?
    ensures var k := |plates| - |tiles|;
      ParentPlates(plates, tiles).value[j] == if j < k then plates[j] else FloorDiv(plates[j], tiles[j - k])
  {
  }

  /** With no more tiles than plates the parent's plates come back exactly. */
  lemma PlatesRoundTripExact(p: seq<nat>, tiles: seq<nat>)
    requires Positive(tiles) && |tiles| <= |p|
    ensures ParentPlates(PlatesFromParent(p, tiles), tiles) == Ok(p)
  {
    PlatesRoundTrip(p, tiles);
  }

  /** A zero tile gives the parent a plate of size 0 on that axis, as numpy
      floor division by zero does, whatever the node's plate there. */
  lemma ZeroTileParentPlate(plates: seq<nat>, tiles: seq<nat>, i: nat)
    requires |tiles| <= |plates| && i < |tiles| && tiles[i] == 0
    ensures ParentPlates(plates, tiles).Ok?
    ensures ParentPlates(plates, tiles).value[|plates| - |tiles| + i] == 0
  {
    ParentPlatesAt(plates, tiles, |plates| - |tiles| + i);
  }
}
