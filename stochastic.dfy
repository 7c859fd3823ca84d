/** Stochastic nodes (`bayespy/inference/vmp/nodes/stochastic.py`): the
    moment list `u`, the `observed` array and the `mask` of active plates,
    updated in place by `_set_mask`, `_set_moments`, `update` and
    `unobserve`; and the default hooks of `Distribution`. */
module Stochastic {
  import opened Common
  import opened Shapes
  import opened NdArrays
  import opened Broadcasting
  import opened Reductions

  /** A float64 element: `utils.nans` fills new moment arrays with NaN. */
  datatype Float = NaN | Num(value: real)

  /** What a node's `_constructor` reads from a parent node: the dimensions
      of its moments and its plates. */
  datatype ParentNode = ParentNode(dims: seq<seq<nat>>, plates: seq<nat>)

  // ---- Default hooks of `Distribution` ----

  /** `Distribution.compute_message_to_parent`: left to the subclasses. */
  function DefaultMessageToParent(index: nat, uSelf: seq<Array<Float>>, uParents: seq<seq<Array<Float>>>): (r: Result<seq<Array<Float>>>)
    ensures r == Err(NotImplementedError)
  {
    Err(NotImplementedError)
  }

  /** `Distribution.compute_mask_to_parent`: the mask is passed on as it is. */
  function DefaultMaskToParent(index: nat, mask: Array<bool>): (r: Array<bool>)
    ensures r == mask
  {
    mask
  }

  /** `Distribution.plates_to_parent`: the plates are passed on as they are. */
  function DefaultPlatesToParent(index: nat, plates: seq<nat>): (r: seq<nat>)
    ensures r == plates
  {
    plates
  }

  /** `Distribution.plates_from_parent`: the plates are taken as they are. */
  function DefaultPlatesFromParent(index: nat, plates: seq<nat>): (r: seq<nat>)
    ensures r == plates
  {
    plates
  }

  // ---- Broadcasting helpers ----

  /** `utils.nans(shape)`: an array of the shape filled with NaN. */
  function Nans(shape: seq<nat>): (r: Array<Float>)
    ensures r.Valid() && r.shape == shape
  {
    ExpandShape(Scalar(NaN), [], shape);
    Array(shape, Expand(Scalar(NaN), [], shape))
  }

  lemma NansAt(shape: seq<nat>, idx: seq<nat>)
    requires InBounds(idx, shape)
    ensures At(Nans(shape).elems, shape, idx) == NaN
  {
    ExpandAt(Scalar(NaN), [], shape, idx);
  }

  /** `broadcasted_shape_from_arrays` of three arrays. */
  function Broadcast3(a: seq<nat>, b: seq<nat>, c: seq<nat>): (r: Option<seq<nat>>)
    ensures r.Some? ==> |r.value| == Max(Max(|a|, |b|), |c|)
    ensures r.Some? ==> Compatible(a, r.value) && Compatible(b, r.value) && Compatible(c, r.value)
  {
    match BroadcastShape(a, b)
    case None => None
    case Some(ab) =>
      match BroadcastShape(ab, c)
      case None => None
      case Some(abc) =>
        CompatibleTrans(a, ab, abc);
        CompatibleTrans(b, ab, abc);
        Some(abc)
  }

  /** The three shapes have a broadcast shape exactly when they have a
      common target, and it is the least one. */
  lemma Broadcast3Least(a: seq<nat>, b: seq<nat>, c: seq<nat>, t: seq<nat>)
    requires Compatible(a, t) && Compatible(b, t) && Compatible(c, t)
    ensures Broadcast3(a, b, c).Some? && Compatible(Broadcast3(a, b, c).value, t)
  {
    BroadcastShapeLeast(a, b, t);
    BroadcastShapeLeast(BroadcastShape(a, b).value, c, t);
  }

  /** `np.logical_or` of two boolean arrays, broadcast against each other;
      `ValueError` when their shapes do not broadcast. */
  function BroadcastOr(a: Array<bool>, b: Array<bool>): (r: Result<Array<bool>>)
    requires a.Valid() && b.Valid()
    ensures r.Err? <==> BroadcastShape(a.shape, b.shape).None?
    ensures r.Err? ==> r.error == ValueError
    ensures r.Ok? ==> r.value.Valid() && r.value.shape == BroadcastShape(a.shape, b.shape).value
    ensures r.Ok? ==> Compatible(a.shape, r.value.shape) && Compatible(b.shape, r.value.shape)
  {
    match BroadcastShape(a.shape, b.shape)
    case None => Err(ValueError)
    case Some(sh) =>
      var ea, eb := Expand(a.elems, a.shape, sh), Expand(b.elems, b.shape, sh);
      ExpandShape(a.elems, a.shape, sh);
      ExpandShape(b.elems, b.shape, sh);
      ZipShape(Or, ea, eb, sh);
      Ok(Array(sh, Zip(Or, ea, eb)))
  }

  /** Each element of the result is the OR of the elements of `a` and `b`
      that broadcast to it. */
  lemma BroadcastOrAt(a: Array<bool>, b: Array<bool>, idx: seq<nat>)
    requires a.Valid() && b.Valid() && BroadcastOr(a, b).Ok?
    requires InBounds(idx, BroadcastOr(a, b).value.shape)
    ensures InBounds(SourceIndex(idx, a.shape), a.shape) && InBounds(SourceIndex(idx, b.shape), b.shape)
    ensures At(BroadcastOr(a, b).value.elems, BroadcastOr(a, b).value.shape, idx) ==
            (At(a.elems, a.shape, SourceIndex(idx, a.shape)) || At(b.elems, b.shape, SourceIndex(idx, b.shape)))
  {
    var sh := BroadcastOr(a, b).value.shape;
    var ea, eb := Expand(a.elems, a.shape, sh), Expand(b.elems, b.shape, sh);
    ExpandAt(a.elems, a.shape, sh, idx);
    ExpandAt(b.elems, b.shape, sh, idx);
    ZipAt(Or, ea, eb, sh, idx);
  }

  /** OR with the scalar `False` leaves a mask as it is. */
  lemma BroadcastOrFalse(a: Array<bool>)
    requires a.Valid()
    ensures BroadcastOr(a, Scalar0(false)) == Ok(a)
  {
    OrFalseShape(a.shape);
    var r := BroadcastOr(a, Scalar0(false)).value;
    forall idx | InBounds(idx, a.shape) ensures At(r.elems, a.shape, idx) == At(a.elems, a.shape, idx) {
      OrFalseAt(a, r, idx);
    }
    Extensionality(r.elems, a.elems, a.shape);
  }

  /** A 0-d array broadcasts to any shape, which is kept. */
  lemma OrFalseShape(s: seq<nat>)
    ensures BroadcastShape(s, []) == Some(s)
  {
    var n := |s|;
    var pa, pb := PadLeft(s, n), PadLeft([], n);
    assert pa == s;
    forall j | 0 <= j < n ensures pb[j] == 1 {
      PadLeftIn([], n, j);
    }
    var c := seq(n, j requires 0 <= j < n => if pa[j] == 1 then pb[j] else pa[j]);
    assert c == s;
  }

  lemma OrFalseAt(a: Array<bool>, r: Array<bool>, idx: seq<nat>)
    requires a.Valid() && BroadcastOr(a, Scalar0(false)) == Ok(r) && r.shape == a.shape && InBounds(idx, a.shape)
    ensures r.Valid() && At(r.elems, a.shape, idx) == At(a.elems, a.shape, idx)
  {
    BroadcastOrAt(a, Scalar0(false), idx);
    SourceIndexSame(idx, a.shape);
  }

  // ---- `_set_moments`, one moment at a time ----

  /** `add_trailing_axes(mask, nd)`: the plate mask extended over the `nd`
      variable axes of a moment. */
  function ExtendMask(m: Array<bool>, nd: nat): (r: Array<bool>)
    requires m.Valid()
    ensures r.Valid() && r.shape == m.shape + Ones(nd)
  {
    AddTrailingShape(m.elems, m.shape, nd);
    Array(m.shape + Ones(nd), AddTrailing(m.elems, nd))
  }

  /** The stored moment enlarged to the broadcast shape of the stored
      moment, the new moment and the extended mask (`repeat_to_shape`),
      then overwritten with the new moment where the mask is true
      (`np.copyto(..., where=u_mask)`); `None` when the three shapes do not
      broadcast (numpy raises `ValueError`). */
  function MaskedStore(prev: Array<Float>, next: Array<Float>, m: Array<bool>, nd: nat): (r: Option<Array<Float>>)
    requires prev.Valid() && next.Valid() && m.Valid()
    ensures r.Some? <==> Broadcast3(prev.shape, next.shape, m.shape + Ones(nd)).Some?
    ensures r.Some? ==> r.value.Valid() && r.value.shape == Broadcast3(prev.shape, next.shape, m.shape + Ones(nd)).value
  {
    var um := ExtendMask(m, nd);
    match Broadcast3(prev.shape, next.shape, um.shape)
    case None => None
    case Some(sh) =>
      var eo, en, em := Expand(prev.elems, prev.shape, sh), Expand(next.elems, next.shape, sh), Expand(um.elems, um.shape, sh);
      ExpandShape(prev.elems, prev.shape, sh);
      ExpandShape(next.elems, next.shape, sh);
      ExpandShape(um.elems, um.shape, sh);
      SelectShape(em, en, eo, sh);
      Some(Array(sh, Select(em, en, eo)))
  }

  /** The masked write, element by element: where the plate mask (read at
      the plate axes of the index) is true the element is the new moment's,
      elsewhere it is the old moment's; both read at the index they
      broadcast to. */
  lemma MaskedStoreAt(prev: Array<Float>, next: Array<Float>, m: Array<bool>, nd: nat, s: Array<Float>, idx: seq<nat>)
    requires prev.Valid() && next.Valid() && m.Valid() && MaskedStore(prev, next, m, nd) == Some(s)
    requires InBounds(idx, s.shape)
    ensures |m.shape| + nd <= |idx|
    ensures InBounds(SourceIndex(idx, prev.shape), prev.shape) && InBounds(SourceIndex(idx, next.shape), next.shape)
    ensures InBounds(SourceIndex(idx[..|idx| - nd], m.shape), m.shape)
    ensures s.Valid()
    ensures At(s.elems, s.shape, idx) ==
            if At(m.elems, m.shape, SourceIndex(idx[..|idx| - nd], m.shape))
            then At(next.elems, next.shape, SourceIndex(idx, next.shape))
            else At(prev.elems, prev.shape, SourceIndex(idx, prev.shape))
  {
    var um := ExtendMask(m, nd);
    var sh := Broadcast3(prev.shape, next.shape, um.shape).value;
    MaskedStoreIs(prev, next, m, nd);
    SelectExpandAt(um, next, prev, sh, idx);
    ExtendMaskAt(m, nd, idx);
  }

  /** `MaskedStore` when the shapes broadcast. */
  lemma MaskedStoreIs(prev: Array<Float>, next: Array<Float>, m: Array<bool>, nd: nat)
    requires prev.Valid() && next.Valid() && m.Valid() && MaskedStore(prev, next, m, nd).Some?
    ensures var um := ExtendMask(m, nd);
      var sh := Broadcast3(prev.shape, next.shape, um.shape).value;
      Compatible(prev.shape, sh) && Compatible(next.shape, sh) && Compatible(um.shape, sh) &&
      MaskedStore(prev, next, m, nd).value ==
        Array(sh, Select(Expand(um.elems, um.shape, sh), Expand(next.elems, next.shape, sh), Expand(prev.elems, prev.shape, sh)))
  {
  }

  /** Element `idx` of a `where`-style choice between broadcast arrays. */
  lemma SelectExpandAt<T>(c: Array<bool>, a: Array<T>, b: Array<T>, sh: seq<nat>, idx: seq<nat>)
    requires c.Valid() && a.Valid() && b.Valid() && InBounds(idx, sh)
    requires Compatible(c.shape, sh) && Compatible(a.shape, sh) && Compatible(b.shape, sh)
    ensures InBounds(SourceIndex(idx, c.shape), c.shape)
    ensures InBounds(SourceIndex(idx, a.shape), a.shape) && InBounds(SourceIndex(idx, b.shape), b.shape)
    ensures HasShape(Select(Expand(c.elems, c.shape, sh), Expand(a.elems, a.shape, sh), Expand(b.elems, b.shape, sh)), sh)
    ensures var ec, ea, eb := Expand(c.elems, c.shape, sh), Expand(a.elems, a.shape, sh), Expand(b.elems, b.shape, sh);
      At(Select(ec, ea, eb), sh, idx) ==
        if At(c.elems, c.shape, SourceIndex(idx, c.shape))
        then At(a.elems, a.shape, SourceIndex(idx, a.shape))
        else At(b.elems, b.shape, SourceIndex(idx, b.shape))
  {
    var ec, ea, eb := Expand(c.elems, c.shape, sh), Expand(a.elems, a.shape, sh), Expand(b.elems, b.shape, sh);
    ExpandAt(c.elems, c.shape, sh, idx);
    ExpandAt(a.elems, a.shape, sh, idx);
    ExpandAt(b.elems, b.shape, sh, idx);
    SelectAt(ec, ea, eb, sh, idx);
  }

  /** The extended mask read at an index is the plate mask read at the
      index's plate axes. */
  lemma ExtendMaskAt(m: Array<bool>, nd: nat, idx: seq<nat>)
    requires m.Valid() && |m.shape| + nd <= |idx|
    requires InBounds(SourceIndex(idx, m.shape + Ones(nd)), m.shape + Ones(nd))
    ensures InBounds(SourceIndex(idx[..|idx| - nd], m.shape), m.shape)
    ensures At(ExtendMask(m, nd).elems, m.shape + Ones(nd), SourceIndex(idx, m.shape + Ones(nd))) ==
            At(m.elems, m.shape, SourceIndex(idx[..|idx| - nd], m.shape))
  {
    var us := m.shape + Ones(nd);
    var src := SourceIndex(idx, us);
    AddTrailingAt(m.elems, m.shape, nd, src);
    var plateIdx := SourceIndex(idx[..|idx| - nd], m.shape);
    assert src[..|m.shape|] == plateIdx by {
      forall j | 0 <= j < |m.shape| ensures src[j] == plateIdx[j] {
        assert us[j] == m.shape[j];
      }
    }
  }

  /** A mask that is false everywhere keeps the old moment, once it has
      the broadcast shape. */
  lemma MaskedStoreNoneTrue(prev: Array<Float>, next: Array<Float>, m: Array<bool>, nd: nat)
    requires prev.Valid() && next.Valid() && m.Valid() && !AnyTrue(m.elems)
    requires MaskedStore(prev, next, m, nd).Some? && MaskedStore(prev, next, m, nd).value.shape == prev.shape
    ensures MaskedStore(prev, next, m, nd).value == prev
  {
    var s := MaskedStore(prev, next, m, nd).value;
    forall idx | InBounds(idx, prev.shape) ensures At(s.elems, prev.shape, idx) == At(prev.elems, prev.shape, idx) {
      NoneTrueAt(prev, next, m, nd, s, idx);
    }
    Extensionality(s.elems, prev.elems, prev.shape);
  }

  lemma NoneTrueAt(prev: Array<Float>, next: Array<Float>, m: Array<bool>, nd: nat, s: Array<Float>, idx: seq<nat>)
    requires prev.Valid() && next.Valid() && m.Valid() && !AnyTrue(m.elems)
    requires MaskedStore(prev, next, m, nd) == Some(s) && s.shape == prev.shape
    requires InBounds(idx, prev.shape)
    ensures s.Valid() && At(s.elems, prev.shape, idx) == At(prev.elems, prev.shape, idx)
  {
    MaskedStoreAt(prev, next, m, nd, s, idx);
    NotAnyAt(m.elems, m.shape, SourceIndex(idx[..|idx| - nd], m.shape));
    SourceIndexSame(idx, prev.shape);
  }

  /** A mask that is true everywhere writes the new moment, when it has
      the broadcast shape. */
  lemma MaskedStoreAllTrue(prev: Array<Float>, next: Array<Float>, m: Array<bool>, nd: nat)
    requires prev.Valid() && next.Valid() && m.Valid() && AllTrue(m.elems)
    requires MaskedStore(prev, next, m, nd).Some? && MaskedStore(prev, next, m, nd).value.shape == next.shape
    ensures MaskedStore(prev, next, m, nd).value == next
  {
    var s := MaskedStore(prev, next, m, nd).value;
    forall idx | InBounds(idx, next.shape) ensures At(s.elems, next.shape, idx) == At(next.elems, next.shape, idx) {
      AllTrueAtStore(prev, next, m, nd, s, idx);
    }
    Extensionality(s.elems, next.elems, next.shape);
  }

  lemma AllTrueAtStore(prev: Array<Float>, next: Array<Float>, m: Array<bool>, nd: nat, s: Array<Float>, idx: seq<nat>)
    requires prev.Valid() && next.Valid() && m.Valid() && AllTrue(m.elems)
    requires MaskedStore(prev, next, m, nd) == Some(s) && s.shape == next.shape
    requires InBounds(idx, next.shape)
    ensures s.Valid() && At(s.elems, next.shape, idx) == At(next.elems, next.shape, idx)
  {
    MaskedStoreAt(prev, next, m, nd, s, idx);
    AllTrueAt(m.elems, m.shape, SourceIndex(idx[..|idx| - nd], m.shape));
    SourceIndexSame(idx, next.shape);
  }

  /** The rank check after the write: a stored moment with more axes than
      the node's plates and dimensions (`rank`) raises `RuntimeError`; one
      with fewer is replaced by the INCOMING moment with leading unit axes
      added (not by the masked store); otherwise it is kept. */
  function FixRank(stored: Array<Float>, next: Array<Float>, rank: nat): (r: Result<Array<Float>>)
    requires stored.Valid() && next.Valid()
    ensures r.Err? <==> rank < |stored.shape|
    ensures r.Err? ==> r.error == RuntimeError
    ensures r.Ok? ==> r.value.Valid()
    ensures rank == |stored.shape| ==> r == Ok(stored)
    ensures rank > |stored.shape| ==>
      (r.Ok? && r.value.shape == Ones(rank - |stored.shape|) + next.shape &&
       SqueezeLeading(r.value.elems, r.value.shape, rank - |stored.shape|) == next.elems)
  {
    if rank > |stored.shape| then
      var k := rank - |stored.shape|;
      SqueezeAddLeading(next.elems, next.shape, k);
      Ok(Array(Ones(k) + next.shape, AddLeading(next.elems, k)))
    else if rank < |stored.shape| then Err(RuntimeError)
    else Ok(stored)
  }

  /** One iteration of `_set_moments`: the moment stored at the end, or the
      error raised; `written` is what `self.u[ind]` holds when the error is
      the rank check's (the masked store is written before the check). */
  datatype Step = Step(result: Result<Array<Float>>, written: Option<Array<Float>>)

  function StoreMoment(prev: Array<Float>, next: Array<Float>, m: Array<bool>, nd: nat, rank: nat): (s: Step)
    requires prev.Valid() && next.Valid() && m.Valid()
    ensures s.result.Ok? ==> s.result.value.Valid()
    ensures s.written.Some? ==> s.written.value.Valid()
  {
    match MaskedStore(prev, next, m, nd)
    case None => Step(Err(ValueError), None)
    case Some(st) =>
      match FixRank(st, next, rank)
      case Err(e) => Step(Err(e), Some(st))
      case Ok(v) => Step(Ok(v), None)
  }

  /** A moment that already has the node's rank keeps it: the write fails
      only when the new moment or the extended mask has more axes, or the
      shapes do not broadcast; otherwise the masked store is kept as it is. */
  lemma StoreMomentRank(prev: Array<Float>, next: Array<Float>, m: Array<bool>, nd: nat, rank: nat)
    requires prev.Valid() && next.Valid() && m.Valid() && |prev.shape| == rank
    ensures var s := StoreMoment(prev, next, m, nd, rank);
      (s.result == Err(RuntimeError) <==>
        MaskedStore(prev, next, m, nd).Some? && (|next.shape| > rank || |m.shape| + nd > rank)) &&
      (s.result.Ok? ==> s.result == Ok(MaskedStore(prev, next, m, nd).value) && |s.result.value.shape| == rank)
  {
    var ms := MaskedStore(prev, next, m, nd);
    if ms.Some? {
      assert |ms.value.shape| == Max(Max(|prev.shape|, |next.shape|), |m.shape| + nd);
    }
  }

  /** The body of the loop of `_set_moments` for one moment: the masked
      write, then the rank check on what it produced. */
  method WriteMoment(prev: Array<Float>, next: Array<Float>, m: Array<bool>, nd: nat, rank: nat) returns (s: Step)
    requires prev.Valid() && next.Valid() && m.Valid()
    ensures s == StoreMoment(prev, next, m, nd, rank)
  {
    var stored := MaskedStore(prev, next, m, nd);
    if stored.None? {
      return Step(Err(ValueError), None);
    }
    var v := stored.value;
    if rank > |v.shape| {
      var k := rank - |v.shape|;
      v := Array(Ones(k) + next.shape, AddLeading(next.elems, k));
    } else if rank < |v.shape| {
      return Step(Err(RuntimeError), Some(v));
    }
    s := Step(Ok(v), None);
  }

  /** The loop of `_set_moments` over the moment list `u0`: writes each new
      moment in turn and stops at the first raise. The node's method stores
      the list this returns. */
  method WriteMoments(u0: seq<Array<Float>>, newU: seq<Array<Float>>, m: Array<bool>, ndims: seq<nat>, ranks: seq<nat>) returns (u: seq<Array<Float>>, r: Result<()>)
    requires AllValid(u0) && AllValid(newU) && m.Valid() && |ndims| == |u0| && |ranks| == |u0|
    ensures AllValid(u)
    ensures Outcome(u, r) == SetMomentsSpec(u0, newU, m, ndims, ranks)
  {
    u := u0;
    ghost var steps := Steps(u, newU, m, ndims, ranks);
    ghost var target := Apply(u, steps, |newU|, 0);
    var ind := 0;
    while ind < |newU|
      invariant 0 <= ind <= |newU| && |u| == |u0| && AllValid(u)
      invariant forall i :: ind <= i < |u| ==> u[i] == u0[i]
      invariant Apply(u, steps, |newU|, ind) == target
    {
      if ind >= |u| {
        return u, Err(IndexError);
      }
      var s := WriteMoment(u[ind], newU[ind], m, ndims[ind], ranks[ind]);
      assert s == steps[ind];
      if s.result.Err? {
        if s.written.Some? {
          u := u[ind := s.written.value];
        }
        return u, s.result.PropagateFailure();
      }
      u := u[ind := s.result.value];
      ind := ind + 1;
    }
    r := Ok(());
  }

  /** The outcome of `_set_moments`: the moment list at the end, and
      whether it returned or raised. */
  datatype Outcome = Outcome(u: seq<Array<Float>>, result: Result<()>)

  predicate AllValid<T>(xs: seq<Array<T>>) {
    forall i :: 0 <= i < |xs| ==> xs[i].Valid()
  }

  /** The write of each moment on its own: iteration `i` of the loop reads
      only `u[i]`, which no earlier iteration has written. `ranks[i]` is
      `len(plates + dims[i])`. */
  function Steps(u: seq<Array<Float>>, newU: seq<Array<Float>>, m: Array<bool>, ndims: seq<nat>, ranks: seq<nat>): (steps: seq<Step>)
    requires AllValid(u) && AllValid(newU) && m.Valid() && |ndims| == |u| && |ranks| == |u|
    ensures |steps| == Min(|u|, |newU|)
    ensures forall i :: 0 <= i < |steps| ==> steps[i] == StoreMoment(u[i], newU[i], m, ndims[i], ranks[i])
  {
    seq(Min(|u|, |newU|), i requires 0 <= i < Min(|u|, |newU|) => StoreMoment(u[i], newU[i], m, ndims[i], ranks[i]))
  }

  function Min(a: nat, b: nat): nat {
    if a < b then a else b
  }

  /** The loop of `_set_moments` from index `ind` on, over the moment list
      `u`, for `n` new moments whose writes are `steps`. The loop stops at
      the first raise: the moments before it have been written, the rest
      keep their old value. */
  function Apply(u: seq<Array<Float>>, steps: seq<Step>, n: nat, ind: nat): (o: Outcome)
    requires ind <= n && |steps| == Min(|u|, n)
    ensures |o.u| == |u|
    ensures forall i :: 0 <= i < |u| && (i < ind || i >= n) ==> o.u[i] == u[i]
    decreases n - ind
  {
    if ind == n then Outcome(u, Ok(()))
    else if ind >= |u| then Outcome(u, Err(IndexError))
    else
      match steps[ind].result
      case Err(e) => Outcome(if steps[ind].written.Some? then u[ind := steps[ind].written.value] else u, Err(e))
      case Ok(v) => Apply(u[ind := v], steps, n, ind + 1)
  }

  /** `_set_moments(newU, mask)` applied to the moment list `u`. */
  function SetMomentsSpec(u: seq<Array<Float>>, newU: seq<Array<Float>>, m: Array<bool>, ndims: seq<nat>, ranks: seq<nat>): (o: Outcome)
    requires AllValid(u) && AllValid(newU) && m.Valid() && |ndims| == |u| && |ranks| == |u|
    ensures |o.u| == |u|
  {
    Apply(u, Steps(u, newU, m, ndims, ranks), |newU|, 0)
  }

  /** The loop succeeds exactly when there are no more new moments than
      stored ones and every moment's write succeeds on its own; each moment
      is then the result of its own write. */
  lemma {:induction false} ApplyOk(u: seq<Array<Float>>, steps: seq<Step>, n: nat, ind: nat)
    requires ind <= n && ind <= |u| && |steps| == Min(|u|, n)
    ensures Apply(u, steps, n, ind).result.Ok? <==> n <= |u| && forall i :: ind <= i < n ==> steps[i].result.Ok?
    ensures Apply(u, steps, n, ind).result.Ok? ==>
      forall i :: ind <= i < n ==> Apply(u, steps, n, ind).u[i] == steps[i].result.value
    decreases n - ind
  {
    if ind < n && ind < |u| {
      if steps[ind].result.Ok? {
        var u' := u[ind := steps[ind].result.value];
        ApplyOk(u', steps, n, ind + 1);
        assert Apply(u, steps, n, ind) == Apply(u', steps, n, ind + 1);
      } else {
        assert !steps[ind].result.Ok?;
      }
    }
  }

  /** The loop raises exactly the error of the first moment whose write
      fails (`IndexError` when there are more new moments than stored
      ones), and the moments past it are left as they were. */
  lemma {:induction false} ApplyErr(u: seq<Array<Float>>, steps: seq<Step>, n: nat, ind: nat, k: nat)
    requires ind <= k < n && k <= |u| && |steps| == Min(|u|, n)
    requires forall i :: ind <= i < k ==> steps[i].result.Ok?
    requires k == |u| || steps[k].result.Err?
    ensures Apply(u, steps, n, ind).result == if k == |u| then Err(IndexError) else steps[k].result.PropagateFailure()
    ensures forall i :: k < i < |u| ==> Apply(u, steps, n, ind).u[i] == u[i]
    decreases k - ind
  {
    if ind < k {
      var u' := u[ind := steps[ind].result.value];
      ApplyErr(u', steps, n, ind + 1, k);
    }
  }

  /** `_set_moments` as a whole: it succeeds exactly when every new moment
      can be written to its stored moment, and then stores each write. */
  lemma SetMomentsOk(u: seq<Array<Float>>, newU: seq<Array<Float>>, m: Array<bool>, ndims: seq<nat>, ranks: seq<nat>)
    requires AllValid(u) && AllValid(newU) && m.Valid() && |ndims| == |u| && |ranks| == |u|
    ensures SetMomentsSpec(u, newU, m, ndims, ranks).result.Ok? <==>
      |newU| <= |u| && forall i :: 0 <= i < |newU| ==> StoreMoment(u[i], newU[i], m, ndims[i], ranks[i]).result.Ok?
    ensures SetMomentsSpec(u, newU, m, ndims, ranks).result.Ok? ==>
      forall i :: 0 <= i < |u| ==>
        (SetMomentsSpec(u, newU, m, ndims, ranks).u[i] ==
         if i < |newU| then StoreMoment(u[i], newU[i], m, ndims[i], ranks[i]).result.value else u[i])
  {
    var steps := Steps(u, newU, m, ndims, ranks);
    ApplyOk(u, steps, |newU|, 0);
  }

  /** A stochastic node: its plates and dimensions, the moment list, the
      observed slices and the mask of active slices. */
  class StochasticNode {
    const plates: seq<nat>
    const dims: seq<seq<nat>>
    const ndims: seq<nat>
    var u: seq<Array<Float>>
    var observed: Array<bool>
    var mask: Array<bool>

    ghost predicate Valid()
      reads this
    {
      |u| == |dims| && |ndims| == |dims| && AllValid(u) && observed.Valid() && mask.Valid() &&
      forall i :: 0 <= i < |dims| ==> ndims[i] == |dims[i]|
    }

    /** `len(plates + dims[i])`, the rank `get_shape(i)` gives a moment. */
    function Ranks(): (r: seq<nat>)
      reads this
      ensures |r| == |dims|
      ensures forall i :: 0 <= i < |dims| ==> r[i] == |plates| + |dims[i]|
    {
      seq(|dims|, i requires 0 <= i < |dims| => |plates| + |dims[i]|)
    }

    /** `Stochastic.__init__` without `initialize_from_prior` (a subclass
        hook): each moment is a NaN array of shape `(1,)*len(plates) + dim`,
        nothing is observed. `mask0` is the mask `Node.__init__` sets. */
    constructor(plates: seq<nat>, dims: seq<seq<nat>>, mask0: Array<bool>)
      requires mask0.Valid()
      ensures Valid() && this.plates == plates && this.dims == dims && mask == mask0
      ensures forall i :: 0 <= i < |dims| ==> u[i].shape == Ones(|plates|) + dims[i]
      ensures forall i, idx :: 0 <= i < |dims| && InBounds(idx, u[i].shape) ==> At(u[i].elems, u[i].shape, idx) == NaN
      ensures observed == Scalar0(false)
      ensures forall i :: 0 <= i < |dims| ==> ndims[i] == |dims[i]|
    {
      this.plates := plates;
      this.dims := dims;
      u := seq(|dims|, i requires 0 <= i < |dims| => Nans(Ones(|plates|) + dims[i]));
      observed := Scalar0(false);
      ndims := seq(|dims|, i requires 0 <= i < |dims| => |dims[i]|);
      mask := mask0;
      new;
      forall i, idx | 0 <= i < |dims| && InBounds(idx, u[i].shape) ensures At(u[i].elems, u[i].shape, idx) == NaN {
        NansAt(Ones(|plates|) + dims[i], idx);
      }
    }

    /** `get_moments`: a new list with the same moments in the same order
        (a Dafny sequence is a value, so rebinding an entry of the result
        cannot reach `u`). */
    method GetMoments() returns (r: seq<Array<Float>>)
      ensures |r| == |u| && forall i :: 0 <= i < |u| ==> r[i] == u[i]
    {
      r := [];
      var i := 0;
      while i < |u|
        invariant 0 <= i <= |u| && |r| == i && forall j :: 0 <= j < i ==> r[j] == u[j]
      {
        r := r + [u[i]];
        i := i + 1;
      }
    }

    /** `_set_mask`: the mask is the given mask OR `observed`. */
    method SetMask(m: Array<bool>) returns (r: Result<()>)
      requires Valid() && m.Valid()
      modifies this`mask
      ensures Valid()
      ensures r.Ok? <==> BroadcastOr(m, observed).Ok?
      ensures r.Ok? ==> mask == BroadcastOr(m, observed).value
      ensures r.Err? ==> r.error == ValueError && mask == old(mask)
    {
      var o := BroadcastOr(m, observed);
      if o.Err? {
        return Err(ValueError);
      }
      mask := o.value;
      r := Ok(());
    }

    /** `_set_moments(u, mask)`: each new moment is written through the
        plate mask; the loop stops at the first raise, leaving the moments
        before it written. */
    method SetMoments(newU: seq<Array<Float>>, m: Array<bool>) returns (r: Result<()>)
      requires Valid() && AllValid(newU) && m.Valid()
      modifies this`u
      ensures Valid()
      ensures Outcome(u, r) == SetMomentsSpec(old(u), newU, m, ndims, Ranks())
    {
      u, r := WriteMoments(u, newU, m, ndims, Ranks());
    }

    /** `update` with the base class's `_update_distribution_and_lowerbound`,
        which raises `NotImplementedError`: nothing happens when every slice
        is observed, otherwise the hook is called with the children's
        message and the parents' moments (gathered by `Node`, passed here). */
    method Update(mChildren: seq<Array<Float>>, uParents: seq<seq<Array<Float>>>) returns (r: Result<()>)
      ensures r.Ok? <==> AllTrue(observed.elems)
      ensures r.Err? ==> r.error == NotImplementedError
    {
      if !AllTrue(observed.elems) {
        return Err(NotImplementedError);
      }
      r := Ok(());
    }

    /** `observe`: left to the subclasses. */
    method Observe(x: Array<Float>, m: Array<bool>) returns (r: Result<()>)
      ensures r == Err(NotImplementedError)
    {
      r := Err(NotImplementedError);
    }

    /** `unobserve`: nothing is observed any more and the mask is set again
        from `childrenMask`, the mask `Node._update_mask` gathers from the
        children. */
    method Unobserve(childrenMask: Array<bool>)
      requires Valid() && childrenMask.Valid()
      modifies this`observed, this`mask
      ensures Valid() && observed == Scalar0(false) && mask == childrenMask
    {
      observed := Scalar0(false);
      BroadcastOrFalse(childrenMask);
      var r := SetMask(childrenMask);
    }
  }

  /** After `_set_mask`, every observed slice is active: an element of the
      mask is true wherever the observed element broadcast to it is. */
  lemma MaskCoversObserved(m: Array<bool>, observed: Array<bool>, idx: seq<nat>)
    requires m.Valid() && observed.Valid() && BroadcastOr(m, observed).Ok?
    requires InBounds(idx, BroadcastOr(m, observed).value.shape)
    requires |observed.shape| <= |idx| && InBounds(SourceIndex(idx, observed.shape), observed.shape)
    requires At(observed.elems, observed.shape, SourceIndex(idx, observed.shape))
    ensures At(BroadcastOr(m, observed).value.elems, BroadcastOr(m, observed).value.shape, idx)
  {
    BroadcastOrAt(m, observed, idx);
  }
}
