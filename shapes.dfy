/** Shape tuples (numpy shapes, plate tuples) and numpy's broadcasting rule
    on them. These stand for the helpers of `bayespy.utils.utils` that the
    node code calls (`make_equal_length`, `multiply_shapes`,
    `broadcasted_shape_from_arrays`); that module is not part of this model,
    so each gets the minimal definition its callers rely on. */
module Shapes {
  import opened Common

  function Ones(n: nat): (r: seq<nat>)
    ensures |r| == n
    ensures forall i :: 0 <= i < n ==> r[i] == 1
  {
    seq(n, _ => 1)
  }

  function Max(a: nat, b: nat): nat {
    if a < b then b else a
  }

  /** One tuple of `make_equal_length`: left-pad with unit axes to length `n`
      (a tuple that is already at least that long is left as it is). */
  function PadLeft(s: seq<nat>, n: nat): (r: seq<nat>)
    ensures |r| == Max(|s|, n)
  {
    if |s| >= n then s else Ones(n - |s|) + s
  }

  /** Axis `j` of the padded shape: 1 in the padding, else the axis of `s`
      it is aligned with. */
  lemma PadLeftAt(s: seq<nat>, n: nat, j: nat)
    requires j < Max(|s|, n)
    ensures PadLeft(s, n)[j] == if j < Max(|s|, n) - |s| then 1 else s[j - (Max(|s|, n) - |s|)]
  {
  }

  /** `PadLeftAt` for a target length that is at least the sequence's. */
  lemma PadLeftIn(s: seq<nat>, n: nat, j: nat)
    requires |s| <= n && j < n
    ensures |PadLeft(s, n)| == n
    ensures PadLeft(s, n)[j] == if j < n - |s| then 1 else s[j - (n - |s|)]
  {
  }

  /** Element-wise product of two shapes of the same length. */
  function Mul(a: seq<nat>, b: seq<nat>): (r: seq<nat>)
    requires |a| == |b|
    ensures |r| == |a|
    ensures forall i :: 0 <= i < |a| ==> r[i] == a[i] * b[i]
  {
    seq(|a|, i requires 0 <= i < |a| => a[i] * b[i])
  }

  /** `multiply_shapes`: pad both shapes to the same length, then multiply
      axis by axis. */
  function MultiplyShapes(a: seq<nat>, b: seq<nat>): (r: seq<nat>)
    ensures |r| == Max(|a|, |b|)
  {
    var n := Max(|a|, |b|);
    Mul(PadLeft(a, n), PadLeft(b, n))
  }

  /** Number of elements of an array of this shape. */
  function Prod(s: seq<nat>): nat {
    if s == [] then 1 else s[0] * Prod(s[1..])
  }

  /** An array of shape `s` broadcasts to shape `target`: `s` is not longer,
      and each of its axes, aligned on the right, is 1 or matches. */
  predicate Compatible(s: seq<nat>, target: seq<nat>) {
    |s| <= |target| &&
    forall j :: 0 <= j < |s| ==> s[j] == 1 || s[j] == target[|target| - |s| + j]
  }

  /** numpy's broadcast of two shapes; None when they cannot be broadcast. */
  function BroadcastShape(a: seq<nat>, b: seq<nat>): (r: Option<seq<nat>>)
    ensures r.Some? ==> |r.value| == Max(|a|, |b|)
    ensures r.Some? ==> Compatible(a, r.value) && Compatible(b, r.value)
  {
    var n := Max(|a|, |b|);
    var pa, pb := PadLeft(a, n), PadLeft(b, n);
    if forall j :: 0 <= j < n ==> pa[j] == pb[j] || pa[j] == 1 || pb[j] == 1 then
      var c := seq(n, j requires 0 <= j < n => if pa[j] == 1 then pb[j] else pa[j]);
      PaddedCompatible(a, c);
      PaddedCompatible(b, c);
      Some(c)
    else
      None
  }

  /** A shape whose left-padding agrees axis by axis (or is 1) with `c`
      broadcasts to `c`. */
  lemma PaddedCompatible(a: seq<nat>, c: seq<nat>)
    requires |a| <= |c|
    requires forall j :: 0 <= j < |c| ==> PadLeft(a, |c|)[j] == 1 || PadLeft(a, |c|)[j] == c[j]
    ensures Compatible(a, c)
  {
    forall j | 0 <= j < |a| ensures a[j] == 1 || a[j] == c[|c| - |a| + j] {
      PadLeftAt(a, |c|, |c| - |a| + j);
    }
  }

  /** An axis of a shape that broadcasts to `target`, padded to the
      target's length, is 1 or the target's axis. */
  lemma CompatiblePadded(s: seq<nat>, target: seq<nat>, j: nat)
    requires Compatible(s, target) && j < |target|
    ensures |PadLeft(s, |target|)| == |target|
    ensures PadLeft(s, |target|)[j] == 1 || PadLeft(s, |target|)[j] == target[j]
  {
    PadLeftIn(s, |target|, j);
    if j >= |target| - |s| {
      var i := j - (|target| - |s|);
      assert s[i] == 1 || s[i] == target[j];
    }
  }

  /** Broadcasting composes: a shape that broadcasts to `b`, which
      broadcasts to `c`, broadcasts to `c`. */
  lemma CompatibleTrans(a: seq<nat>, b: seq<nat>, c: seq<nat>)
    requires Compatible(a, b) && Compatible(b, c)
    ensures Compatible(a, c)
  {
    forall j | 0 <= j < |a| ensures a[j] == 1 || a[j] == c[|c| - |a| + j] {
      var k := |b| - |a| + j;
      assert a[j] == 1 || a[j] == b[k];
      assert b[k] == 1 || b[k] == c[|c| - |b| + k];
    }
  }

  /** The broadcast shape exists exactly when some shape is a common target,
      and then it is the least such shape: it broadcasts to every common target. */
  lemma BroadcastShapeLeast(a: seq<nat>, b: seq<nat>, t: seq<nat>)
    requires Compatible(a, t) && Compatible(b, t)
    ensures BroadcastShape(a, b).Some?
    ensures Compatible(BroadcastShape(a, b).value, t)
  {
    var n := Max(|a|, |b|);
    var pa, pb := PadLeft(a, n), PadLeft(b, n);
    forall j | 0 <= j < n
      ensures pa[j] == pb[j] || pa[j] == 1 || pb[j] == 1
      ensures pa[j] == 1 || pa[j] == t[|t| - n + j]
      ensures pb[j] == 1 || pb[j] == t[|t| - n + j]
    {
      PadLeftAt(a, n, j);
      PadLeftAt(b, n, j);
    }
  }
}
