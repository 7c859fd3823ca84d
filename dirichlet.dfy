/** Dirichlet nodes (`bayespy/inference/vmp/nodes/dirichlet.py`): the
    validation and dimensions of the prior's fixed values (the sample sizes
    `alpha`) and of fixed probability vectors, the pass-through of the
    parent's moments into the natural parameters, and the constructor. */
module Dirichlet {
  import opened Common
  import opened Shapes
  import opened NdArrays
  import opened Stochastic

  predicate Negative(v: real) {
    v < 0.0
  }

  predicate AboveOne(v: real) {
    v > 1.0
  }

  /** `np.shape(x)[-1]`. */
  function LastAxis(shape: seq<nat>): nat
    requires |shape| >= 1
  {
    shape[|shape| - 1]
  }

  // ---- DirichletPriorMoments ----

  /** `DirichletPriorMoments.compute_fixed_moments(alpha)`, its first
      moment: `ValueError` for a 0-d array or for any negative entry (a
      zero entry passes), otherwise `alpha` itself. The second moment, the
      log-normaliser built from `gammaln`, is not part of this model. */
  function PriorFixedMoments(alpha: Array<real>): (r: Result<Array<real>>)
    requires alpha.Valid()
    ensures r.Err? <==>
      |alpha.shape| < 1 || exists idx :: InBounds(idx, alpha.shape) && At(alpha.elems, alpha.shape, idx) < 0.0
    ensures r.Err? ==> r.error == ValueError
    ensures r.Ok? ==> r.value == alpha
  {
    AnyMapAt(Negative, alpha.elems, alpha.shape);
    if |alpha.shape| < 1 then Err(ValueError)
    else if AnyTrue(Map(Negative, alpha.elems)) then Err(ValueError)
    else Ok(alpha)
  }

  /** `DirichletPriorMoments.compute_dims_from_values(alpha)`: `ValueError`
      for a 0-d array; otherwise `[(d,), ()]` with `d` the length of the
      last axis. */
  function PriorDimsFromValues(alpha: Array<real>): (r: Result<seq<seq<nat>>>)
    ensures r.Err? <==> |alpha.shape| < 1
    ensures r.Err? ==> r.error == ValueError
    ensures r.Ok? ==> r.value == [[alpha.shape[|alpha.shape| - 1]], []]
    ensures r.Ok? ==> alpha.shape == alpha.shape[..|alpha.shape| - 1] + r.value[0]
  {
    if |alpha.shape| < 1 then Err(ValueError)
    else Ok([[LastAxis(alpha.shape)], []])
  }

  /** The prior's dimensions agree with its moments: an accepted `alpha` is
      an array of plates followed by the first dimension, and the second
      moment is a plate array with no dimension of its own. */
  lemma PriorDimsMatchMoments(alpha: Array<real>)
    requires alpha.Valid() && PriorFixedMoments(alpha).Ok?
    ensures PriorDimsFromValues(alpha).Ok?
    ensures var dims := PriorDimsFromValues(alpha).value;
      PriorFixedMoments(alpha).value.shape == alpha.shape[..|alpha.shape| - 1] + dims[0] && dims[1] == []
  {
    var n := |alpha.shape|;
    assert alpha.shape == alpha.shape[..n - 1] + [alpha.shape[n - 1]];
  }

  /** Zero sample sizes are accepted: any array of at least one axis whose
      entries are all 0 passes the check. */
  lemma PriorAcceptsZero(alpha: Array<real>)
    requires alpha.Valid() && |alpha.shape| >= 1
    requires forall idx :: InBounds(idx, alpha.shape) ==> At(alpha.elems, alpha.shape, idx) == 0.0
    ensures PriorFixedMoments(alpha) == Ok(alpha)
  {
  }

  // ---- DirichletMoments ----

  /** The range checks of `DirichletMoments.compute_fixed_moments(p)`, which
      come before the sum-to-one check: `ValueError` for a 0-d array or for
      any entry outside `[0, 1]`. */
  function CheckProbabilities(p: Array<real>): (r: Result<()>)
    requires p.Valid()
    ensures r.Err? <==>
      |p.shape| < 1 ||
      exists idx :: InBounds(idx, p.shape) && !(0.0 <= At(p.elems, p.shape, idx) <= 1.0)
    ensures r.Err? ==> r.error == ValueError
  {
    AnyMapAt(Negative, p.elems, p.shape);
    AnyMapAt(AboveOne, p.elems, p.shape);
    if |p.shape| < 1 then Err(ValueError)
    else if AnyTrue(Map(Negative, p.elems)) || AnyTrue(Map(AboveOne, p.elems)) then Err(ValueError)
    else Ok(())
  }

  /** `DirichletMoments.compute_dims_from_values(x)`: `ValueError` for a
      0-d array; otherwise `((D,),)` with `D` the length of the last axis. */
  function DimsFromValues(x: Array<real>): (r: Result<seq<seq<nat>>>)
    ensures r.Err? <==> |x.shape| < 1
    ensures r.Err? ==> r.error == ValueError
    ensures r.Ok? ==> r.value == [[x.shape[|x.shape| - 1]]]
    ensures r.Ok? ==> x.shape == x.shape[..|x.shape| - 1] + r.value[0]
  {
    if |x.shape| < 1 then Err(ValueError)
    else Ok([[LastAxis(x.shape)]])
  }

  /** Every probability array that passes the range checks has dimensions,
      and they are its last axis. */
  lemma DimsOfCheckedProbabilities(p: Array<real>)
    requires p.Valid() && CheckProbabilities(p).Ok?
    ensures DimsFromValues(p).Ok?
    ensures p.shape == p.shape[..|p.shape| - 1] + DimsFromValues(p).value[0]
  {
    var n := |p.shape|;
    assert p.shape == p.shape[..n - 1] + [p.shape[n - 1]];
  }

  // ---- DirichletDistribution ----

  /** `compute_message_to_parent`: not implemented. */
  function MessageToParent(index: nat, uSelf: seq<Array<real>>, uAlpha: seq<Array<real>>): (r: Result<seq<Array<real>>>)
    ensures r == Err(NotImplementedError)
  {
    Err(NotImplementedError)
  }

  /** `compute_fixed_moments_and_f`: not implemented. */
  function FixedMomentsAndF(x: Array<real>): (r: Result<(seq<Array<real>>, real)>)
    ensures r == Err(NotImplementedError)
  {
    Err(NotImplementedError)
  }

  /** `compute_phi_from_parents(u_alpha)`: the natural parameter is the
      parent's first moment (`IndexError` for an empty moment list). */
  function PhiFromParents(uAlpha: seq<Array<real>>): (r: Result<seq<Array<real>>>)
    ensures r.Err? <==> |uAlpha| < 1
    ensures r.Err? ==> r.error == IndexError
    ensures r.Ok? ==> r.value == [uAlpha[0]]
  {
    if |uAlpha| < 1 then Err(IndexError) else Ok([uAlpha[0]])
  }

  /** `compute_cgf_from_parents(u_alpha)`: the expected log-normaliser is
      the parent's second moment (`IndexError` when there is none). */
  function CgfFromParents(uAlpha: seq<Array<real>>): (r: Result<Array<real>>)
    ensures r.Err? <==> |uAlpha| < 2
    ensures r.Err? ==> r.error == IndexError
    ensures r.Ok? ==> r.value == uAlpha[1]
  {
    if |uAlpha| < 2 then Err(IndexError) else Ok(uAlpha[1])
  }

  /** A Dirichlet node whose parent is fixed to `alpha` (with any
      normaliser `z`): its natural parameter is `alpha` itself and its
      expected log-normaliser is `z`, so the prior's check on `alpha` is the
      check on the node's parameter. */
  lemma FixedPriorParameters(alpha: Array<real>, z: Array<real>)
    requires alpha.Valid() && PriorFixedMoments(alpha).Ok?
    ensures PhiFromParents([PriorFixedMoments(alpha).value, z]) == Ok([alpha])
    ensures CgfFromParents([PriorFixedMoments(alpha).value, z]) == Ok(z)
  {
  }

  // ---- The constructor ----

  /** What `_constructor` hands to the node: its dimensions and the plates
      the parent gives it. */
  datatype Construction = Construction(dims: seq<seq<nat>>, parentPlates: seq<nat>)

  /** `Dirichlet._constructor(alpha)`: `D = alpha.dims[0][0]` (an
      `IndexError` when the parent has no such dimension), the node's
      dimensions are `((D,),)` and its plates come from the parent's. */
  function Constructor(alpha: ParentNode): (r: Result<Construction>)
    ensures r.Ok? <==> |alpha.dims| > 0 && |alpha.dims[0]| > 0
    ensures r.Err? ==> r.error == IndexError
    ensures r.Ok? ==> r.value.dims == [[alpha.dims[0][0]]] && r.value.parentPlates == alpha.plates
  {
    if |alpha.dims| == 0 || |alpha.dims[0]| == 0 then Err(IndexError)
    else Ok(Construction([[alpha.dims[0][0]]], alpha.plates))
  }

  /** The node's dimension is the prior's: for a parent whose moments have
      the dimensions of a fixed `alpha`, the node's dimensions are those a
      probability vector of `alpha`'s last axis has. */
  lemma ConstructorMatchesPrior(alpha: Array<real>, plates: seq<nat>, p: Array<real>)
    requires alpha.Valid() && PriorDimsFromValues(alpha).Ok?
    requires |p.shape| >= 1 && LastAxis(p.shape) == LastAxis(alpha.shape)
    ensures Constructor(ParentNode(PriorDimsFromValues(alpha).value, plates)).Ok?
    ensures Constructor(ParentNode(PriorDimsFromValues(alpha).value, plates)).value.dims == DimsFromValues(p).value
  {
  }
}
