# Variational message-passing nodes of BayesPy, modelled in Dafny

BayesPy builds a Bayesian model as a graph of nodes. Each node holds the
moments of one variable, with leading *plate* axes (independent
repetitions) followed by the variable's own *dimensions*. Variational
message passing sends moments down from parents to children, and messages
and masks up from children to parents.

This project models four pieces of that graph:

- **Deterministic nodes and `tile`** (`deterministic.dfy`, `tile_plates.dfy`,
  `tile_moments.dfy`, `tile_messages.dfy`).
  - A deterministic node is known to its parents only while it has a
    (ultimately stochastic) child. `_add_child` registers it with every
    parent at that parent's positional index, and `_remove_child` detaches
    it once its last child is gone. The node graph is an arena: `NodeGraph`
    holds one `children` set per node, and the methods update them in place.
  - `tile` multiplies the parent's plates by the tile counts, aligned on the
    right. Going back, each of the last `len(tiles)` plates is
    floor-divided.
  - The tile node's moments are `np.tile` of the parent's moments. Unit
    axes and leading axes beyond the moment's rank are not tiled.
  - The mask and the messages sent to the parent are reshaped into
    interleaved (replica, plate) axes and reduced: `np.any` for masks,
    `np.sum` times the multiplicity `r` for messages. Then the leading unit
    axes the parent does not have are squeezed away.
- **Stochastic node state** (`stochastic.dfy`). `StochasticNode` holds the
  moment list `u`, the `observed` array and the `mask`, with these
  operations:
  - `_set_mask` ORs the mask with `observed`;
  - `_set_moments` is a masked store followed by a rank check;
  - `update` does nothing when everything is observed;
  - `unobserve`.
  The module also holds the identity hooks of `Distribution`.
- **Categorical fixed values** (`categorical.dfy`): the integer and range
  checks and the one-hot encoding of observed category indices, the
  category-count check, and the constructor.
- **Dirichlet validation** (`dirichlet.dfy`):
  - the checks and dimensions of the prior's sample sizes and of fixed
    probability vectors;
  - the pass-through of the parent's moments to the natural parameter and
    the cgf;
  - the constructor.

The supporting modules are:

- `common.dfy`: Python exceptions, modelled as `Result` errors.
- `shapes.dfy`: shape tuples and numpy broadcasting.
- `ndarray.dfy`: arrays as nested `Tensor`s with a shape.
- `broadcast.dfy`: broadcasting, adding axes and squeezing axes.
- `replication.dfy`: `np.tile`, and replica reduction over interleaved
  axes.
- `reductions.dfy`: sums, totals and `any` over those reductions.

## Model

| member | source | states |
|---|---|---|
| Deterministic.AddLinkEffect | bayespy/inference/vmp/nodes/deterministic.py:80-106 | after `_add_child` the child link is recorded and no link is lost. A deterministic node becomes registered with all its parents; a stochastic node's add touches no other node. Every new link is the added one or the registration of a deterministic node |
| Deterministic.RegisterEffect | bayespy/inference/vmp/nodes/deterministic.py:105-106 | the loop over `enumerate(self.parents)` puts `(node, i)` into parent `i`'s children for every remaining index and loses no link |
| Deterministic.AddLinkSound | bayespy/inference/vmp/nodes/deterministic.py:80-106 | adding a child of an active node keeps every recorded link a genuine parent edge from an active child |
| Deterministic.AddLinkConsistent | bayespy/inference/vmp/nodes/deterministic.py:80-106 | adding an edge from an active child keeps the graph consistent: a deterministic node is registered exactly while it has children |
| Deterministic.RemoveLinkEffect | bayespy/inference/vmp/nodes/deterministic.py:108-124 | `_remove_child` removes exactly that link. A deterministic node left without children is unregistered from every parent; otherwise the other nodes are untouched |
| Deterministic.UnregisterEffect | bayespy/inference/vmp/nodes/deterministic.py:122-124 | the loop over the parents removes `(node, i)` from every parent `i`, and only links of deterministic nodes that became childless are lost |
| Deterministic.RemoveLinkConsistent | bayespy/inference/vmp/nodes/deterministic.py:108-124 | removing a link keeps the graph consistent |
| Deterministic.AddRemoveRoundTrip | bayespy/inference/vmp/nodes/deterministic.py:80-124 | adding a new stochastic child and then removing it restores every node's children |
| Deterministic.RemoveAddRoundTrip | bayespy/inference/vmp/nodes/deterministic.py:80-124 | removing a present stochastic child and adding it back restores every node's children |
| Deterministic.ConsistentUnique | bayespy/inference/vmp/nodes/deterministic.py:80-124 | the children of every node are determined by the stochastic links alone |
| Deterministic.LowerBoundContribution | bayespy/inference/vmp/nodes/deterministic.py:126-129 | a deterministic node contributes 0 to the lower bound |
| Deterministic.NodeGraph.AddNode | bayespy/inference/vmp/nodes/deterministic.py:55-56 | a new deterministic node starts with no children and does not notify its parents; a new stochastic node registers with its parents |
| Deterministic.NodeGraph.AddChild | bayespy/inference/vmp/nodes/deterministic.py:80-106 | the in-place update of the children sets equals `AddLink`, and a consistent graph stays consistent when the new link is a real parent link of an active child |
| Deterministic.NodeGraph.RemoveChild | bayespy/inference/vmp/nodes/deterministic.py:108-124 | the in-place update of the children sets equals `RemoveLink`, and a consistent graph stays consistent when the child is not a deterministic node that still has children |
| TilePlates.FloorDiv | bayespy/inference/vmp/nodes/deterministic.py:154-168 | numpy floor division of a plate by an `int64` tile: 0 for a zero tile, the plate itself for a unit tile, never more than the plate |
| TilePlates.FloorDivIsDiv | bayespy/inference/vmp/nodes/deterministic.py:168 | for a positive tile, `FloorDiv` is exactly the floor quotient `plate // tile` |
| TilePlates.PlatesFromParent | bayespy/inference/vmp/nodes/deterministic.py:171-173 | the node has as many plates as the longer of the parent's plates and the tiles |
| TilePlates.PlatesFromParentAt | bayespy/inference/vmp/nodes/deterministic.py:171-173 | each of the node's plates is the right-aligned parent plate times the right-aligned tile (missing entries count as 1) |
| TilePlates.ParentPlates | bayespy/inference/vmp/nodes/deterministic.py:165-169 | `IndexError` exactly when there are more tiles than plates; otherwise a tuple of the node's plate count |
| TilePlates.PlatesToParent | bayespy/inference/vmp/nodes/deterministic.py:165-169 | the floor-dividing loop over the last `len(tiles)` plates computes `ParentPlates` |
| TilePlates.ParentPlatesAt | bayespy/inference/vmp/nodes/deterministic.py:165-169 | the leading plates are kept and each of the last `len(tiles)` plates is divided by its tile |
| TilePlates.PlatesRoundTrip | bayespy/inference/vmp/nodes/deterministic.py:165-173 | with positive tiles, the plates from the parent taken back to the parent are the parent's plates left-padded with ones |
| TilePlates.ZeroTileParentPlate | bayespy/inference/vmp/nodes/deterministic.py:154-168 | a zero tile gives the parent a plate of size 0 on its axis, without an error |
| TilePlates.PlatesRoundTripExact | bayespy/inference/vmp/nodes/deterministic.py:165-173 | when the parent has at least `len(tiles)` plates, the round trip gives exactly the parent's plates |
| TileMoments.TileReps | bayespy/inference/vmp/nodes/deterministic.py:274-284 | one repetition count per moment axis; an axis of length at most 1 is never repeated |
| TileMoments.TileRepsAligned | bayespy/inference/vmp/nodes/deterministic.py:274-284 | a non-unit plate axis is repeated by the tile aligned with it from the right; dimension axes and axes beyond the tiles are not repeated |
| TileMoments.TileMoment | bayespy/inference/vmp/nodes/deterministic.py:270-288 | a 0-d moment is returned unchanged; otherwise each axis is multiplied by its repetition count and unit axes stay unit |
| TileMoments.TileMomentAt | bayespy/inference/vmp/nodes/deterministic.py:283-287 | every element of the tiled moment is the parent's element at the index taken modulo the parent's shape |
| TileMoments.TileMomentOneAxis | bayespy/inference/vmp/nodes/deterministic.py:133-136 | an axis of length `n > 1` tiled `t` times has length `t*n` and `out[k*n+j] == u[j]` |
| TileMoments.TileMomentCompatible | bayespy/inference/vmp/nodes/deterministic.py:262-289 | a parent moment that broadcasts to the parent's plates and dimensions tiles to one that broadcasts to the node's plates and dimensions |
| TileMoments.GetMoments | bayespy/inference/vmp/nodes/deterministic.py:58-60 | moments are computed afresh from the parent's moments, one per moment, each of the parent's rank |
| TileMoments.GetMomentsCompatible | bayespy/inference/vmp/nodes/deterministic.py:58-60 | the moments the node gives its children broadcast to the node's plates and dimensions |
| TileMoments.ComputeMoments | bayespy/inference/vmp/nodes/deterministic.py:262-289 | the appending loop of `_compute_moments` builds exactly `GetMoments` |
| Replication.TileAt | bayespy/inference/vmp/nodes/deterministic.py:287 | `np.tile` element at `idx` is the source element at `idx` modulo the source shape |
| Replication.TileOneAxis | bayespy/inference/vmp/nodes/deterministic.py:133-136 | one-axis `np.tile`: the block `x` is repeated whole, `out[k*n+j] == x[j]` |
| Reductions.MaskOneAxis | bayespy/inference/vmp/nodes/deterministic.py:198-206 | on one axis, `result[j]` is true iff some replica `k < t` has `mask[k*n+j]` true |
| Reductions.MessageOneAxis | bayespy/inference/vmp/nodes/deterministic.py:246-254 | on one axis, `result[j]` is the sum over replicas `k < t` of `m[k*n+j]` |
| Reductions.ReduceOrAny | bayespy/inference/vmp/nodes/deterministic.py:198-206 | OR over the replica axes keeps whether any element is true |
| Reductions.ReduceAddTotal | bayespy/inference/vmp/nodes/deterministic.py:246-254 | summing over the replica axes keeps the total |
| Reductions.ReduceTileAdd | bayespy/inference/vmp/nodes/deterministic.py:246-254 | summing the replicas of a tiled array gives the array times the product of the tiles |
| Reductions.TileTotal | bayespy/inference/vmp/nodes/deterministic.py:283-287 | tiling multiplies the total by the product of the tiles |
| Reductions.TileAny | bayespy/inference/vmp/nodes/deterministic.py:283-287 | tiling keeps whether any element is true |
| Reductions.ScaleTotal | bayespy/inference/vmp/nodes/deterministic.py:254 | multiplying by `r` multiplies the total by `r` |
| TileMessages.UnitAxes | bayespy/inference/vmp/nodes/deterministic.py:232-242 | the loop that unit-sizes the axes where the message has length 1 builds `AxisLayout` and accumulates `r` as `Multiplicity` |
| TileMessages.UnitTilesProdStep | bayespy/inference/vmp/nodes/deterministic.py:238-242 | each step multiplies `r` by the tile exactly when the message axis has length 1 |
| TileMessages.UnitTilesProdZero | bayespy/inference/vmp/nodes/deterministic.py:238-242 | a zero tile on an axis where the message has length 1 makes `r` zero |
| TileMessages.MultiplicityZero | bayespy/inference/vmp/nodes/deterministic.py:225-242 | after `make_equal_length`, a zero tile meeting a unit message axis gives `r == 0` |
| TileMessages.UnitTilesProdOne | bayespy/inference/vmp/nodes/deterministic.py:235-242 | when no tile above 1 meets a unit message axis, `r` is 1 |
| TileMessages.LayoutAt | bayespy/inference/vmp/nodes/deterministic.py:189-194 | a unit message axis gets tile 1 and plate 1; any other axis keeps its tile and plate |
| TileMessages.NodeShapeSplit | bayespy/inference/vmp/nodes/deterministic.py:222-230 | padded tiles times padded parent plates and dimensions are the node's plates and dimensions |
| TileMessages.NodeLayoutFits | bayespy/inference/vmp/nodes/deterministic.py:228-250 | a message that broadcasts to the node's shape reshapes into the interleaved (tile, plate) layout, with positive tiles |
| TileMessages.ParentLayout | bayespy/inference/vmp/nodes/deterministic.py:180-210 | the plates sent to the parent are the padded parent plates, and the axes in front of the parent's plates are unit axes that can be squeezed |
| TileMessages.MaskToParent | bayespy/inference/vmp/nodes/deterministic.py:175-212 | for positive tiles, a valid mask of the parent's rank |
| TileMessages.ComputeMaskToParent | bayespy/inference/vmp/nodes/deterministic.py:175-212 | the step-by-step computation equals `MaskToParent` |
| TileMessages.MaskIs | bayespy/inference/vmp/nodes/deterministic.py:175-212 | with positive tiles, the mask is the node's mask reshaped on the unit-aware layout, OR-reduced over replicas and squeezed |
| TileMessages.MaskAny | bayespy/inference/vmp/nodes/deterministic.py:198-210 | the mask sent to the parent has a true element iff the node's mask has one |
| TileMessages.CollapseAny | bayespy/inference/vmp/nodes/deterministic.py:198-210 | reshape, OR over replica axes and squeeze keep whether any element is true |
| TileMessages.CollapseTotal | bayespy/inference/vmp/nodes/deterministic.py:246-258 | reshape, sum over replica axes and squeeze keep the total |
| TileMessages.MessageToParent | bayespy/inference/vmp/nodes/deterministic.py:215-258 | for positive tiles, a valid message of the parent's rank plus the moment's dimensions |
| TileMessages.MessagesToParent | bayespy/inference/vmp/nodes/deterministic.py:215-260 | one valid message per moment, each of the parent's rank plus that moment's dimensions |
| TileMessages.ComputeOneMessage | bayespy/inference/vmp/nodes/deterministic.py:219-258 | the body of the per-moment loop computes `MessageToParent` |
| TileMessages.ComputeMessageToParent | bayespy/inference/vmp/nodes/deterministic.py:215-260 | the loop that overwrites `m[ind]` computes `MessagesToParent` |
| TileMessages.MessagesToParentIs | bayespy/inference/vmp/nodes/deterministic.py:215-260 | messages equal one by one to `MessageToParent` are the list result |
| TileMessages.MessageIs | bayespy/inference/vmp/nodes/deterministic.py:215-258 | with positive tiles, the message is the reshaped message summed over replicas, multiplied by `r` and squeezed |
| TileMessages.MessageTotal | bayespy/inference/vmp/nodes/deterministic.py:235-254 | the total of the message to the parent equals the total of the node's message scaled by `r` |
| Stochastic.DefaultMessageToParent | bayespy/inference/vmp/nodes/stochastic.py:36-37 | the default message hook raises `NotImplementedError` |
| Stochastic.DefaultMaskToParent | bayespy/inference/vmp/nodes/stochastic.py:39-41 | the default mask hook returns its argument |
| Stochastic.DefaultPlatesToParent | bayespy/inference/vmp/nodes/stochastic.py:43-44 | the default plates hook returns its argument |
| Stochastic.DefaultPlatesFromParent | bayespy/inference/vmp/nodes/stochastic.py:46-47 | the default plates hook returns its argument |
| Stochastic.NansAt | bayespy/inference/vmp/nodes/stochastic.py:86 | a fresh moment array is NaN at every index |
| Stochastic.BroadcastOr | bayespy/inference/vmp/nodes/stochastic.py:122-123 | `ValueError` exactly when the shapes do not broadcast; otherwise the result has the broadcast shape |
| Stochastic.BroadcastOrAt | bayespy/inference/vmp/nodes/stochastic.py:122-123 | each element is the OR of the two broadcast source elements |
| Stochastic.BroadcastOrFalse | bayespy/inference/vmp/nodes/stochastic.py:122-123 | OR with an unobserved (`False`) node leaves the mask unchanged |
| Stochastic.MaskCoversObserved | bayespy/inference/vmp/nodes/stochastic.py:122-123 | an observed element is always in the mask |
| Stochastic.Broadcast3Least | bayespy/inference/vmp/nodes/stochastic.py:135 | the broadcast of three shapes exists whenever they have a common target, and it broadcasts to that target |
| Stochastic.MaskedStore | bayespy/inference/vmp/nodes/stochastic.py:131-149 | the store exists exactly when the old moment, the new moment and the extended mask broadcast; it then has their broadcast shape |
| Stochastic.MaskedStoreAt | bayespy/inference/vmp/nodes/stochastic.py:131-149 | where the plate mask (extended over the variable axes) is true the element is the new value, elsewhere the old value |
| Stochastic.MaskedStoreNoneTrue | bayespy/inference/vmp/nodes/stochastic.py:147-149 | a mask with no true element leaves the moment unchanged |
| Stochastic.MaskedStoreAllTrue | bayespy/inference/vmp/nodes/stochastic.py:147-149 | an all-true mask stores the new moment |
| Stochastic.FixRank | bayespy/inference/vmp/nodes/stochastic.py:154-171 | `RuntimeError` exactly when the stored moment has more axes than `plates+dims`; equal rank keeps it; lower rank gives the incoming moment with leading unit axes added |
| Stochastic.StoreMomentRank | bayespy/inference/vmp/nodes/stochastic.py:128-171 | for a stored moment of the right rank, one step raises `RuntimeError` exactly when the new moment or the extended mask has too many axes, and otherwise stores the masked result |
| Stochastic.WriteMoment | bayespy/inference/vmp/nodes/stochastic.py:131-171 | one iteration of the loop computes `StoreMoment` |
| Stochastic.WriteMoments | bayespy/inference/vmp/nodes/stochastic.py:125-171 | the loop over the new moments computes `SetMomentsSpec`: the final moment list and the error |
| Stochastic.ApplyOk | bayespy/inference/vmp/nodes/stochastic.py:128-171 | the loop succeeds iff every step succeeds and no index runs past `u`; it then holds every step's result |
| Stochastic.ApplyErr | bayespy/inference/vmp/nodes/stochastic.py:128-171 | the first failing step (or `IndexError` past the end of `u`) is the error, and later moments are untouched |
| Stochastic.SetMomentsOk | bayespy/inference/vmp/nodes/stochastic.py:125-171 | `_set_moments` succeeds iff every step succeeds; then the moments with a new value are stored and the others keep their old value |
| Stochastic.StochasticNode.Ranks | bayespy/inference/vmp/nodes/stochastic.py:154-155 | the rank expected of moment `i` is the number of plates plus `len(dims[i])` |
| Stochastic.StochasticNode.constructor | bayespy/inference/vmp/nodes/stochastic.py:78-94 | each `u[i]` has shape `(1,)*len(plates) + dims[i]` and is all NaN; `observed` is false and `ndims[i] == len(dims[i])` |
| Stochastic.StochasticNode.GetMoments | bayespy/inference/vmp/nodes/stochastic.py:106-109 | the result holds the same moments in the same order |
| Stochastic.StochasticNode.SetMask | bayespy/inference/vmp/nodes/stochastic.py:122-123 | the mask becomes `mask OR observed`, or `ValueError` with the mask unchanged when they do not broadcast |
| Stochastic.StochasticNode.SetMoments | bayespy/inference/vmp/nodes/stochastic.py:125-171 | the moment list and the error are those of `SetMomentsSpec` |
| Stochastic.StochasticNode.Update | bayespy/inference/vmp/nodes/stochastic.py:174-178 | does nothing and succeeds iff everything is observed; otherwise the base class's update raises `NotImplementedError` |
| Stochastic.StochasticNode.Observe | bayespy/inference/vmp/nodes/stochastic.py:180-184 | `observe` raises `NotImplementedError` |
| Stochastic.StochasticNode.Unobserve | bayespy/inference/vmp/nodes/stochastic.py:186-189 | `observed` becomes false and the mask is recomputed from the children's mask |
| Categorical.ComputeFixedMoments | bayespy/inference/vmp/nodes/categorical.py:57-73 | `ValueError` exactly when the values are not integers or some value is outside `0 <= x < D`; otherwise one moment of shape `shape(x)+(D,)` |
| Categorical.FixedMomentsAt | bayespy/inference/vmp/nodes/categorical.py:69-71 | entry `[..., k]` is 1 iff `k == x[...]`, else 0 |
| Categorical.FixedMomentsRowsSumToOne | bayespy/inference/vmp/nodes/categorical.py:69-71 | every last-axis row of the encoding sums to 1 |
| Categorical.DecodeFixedMoments | bayespy/inference/vmp/nodes/categorical.py:69-71 | the position of the 1 in each row gives back the value: the encoding is lossless |
| Categorical.ComputeDimsFromValues | bayespy/inference/vmp/nodes/categorical.py:76-82 | exactly `((D,),)`, whatever `x` is |
| Categorical.DimsMatchMoments | bayespy/inference/vmp/nodes/categorical.py:76-82 | the dims `((D,),)` are the trailing shape of the fixed moments, whatever `x` is |
| Categorical.NewDistribution | bayespy/inference/vmp/nodes/categorical.py:90-101 | `ValueError` exactly for a non-`int` or negative category count; otherwise `D` is stored |
| Categorical.ComputeFixedMomentsAndF | bayespy/inference/vmp/nodes/categorical.py:132-153 | `f` is 0 |
| Categorical.FixedMomentsAgree | bayespy/inference/vmp/nodes/categorical.py:132-153 | gives the same moments and the same errors as `CategoricalMoments.compute_fixed_moments` for the same `D`, with `f == 0` |
| Categorical.Constructor | bayespy/inference/vmp/nodes/categorical.py:164-189 | `D = p.dims[0][0]` (`IndexError` when missing), dims `((D,),)`, moments and distribution built with that `D`, plates from the parent's |
| Categorical.ConstructorConsistent | bayespy/inference/vmp/nodes/categorical.py:176-184 | the constructed moments' dims are the node's dims, and its distribution and moments accept the same values |
| Dirichlet.PriorFixedMoments | bayespy/inference/vmp/nodes/dirichlet.py:44-57 | `ValueError` exactly for a 0-d `alpha` or a negative entry; otherwise the first moment is `alpha` unchanged |
| Dirichlet.PriorAcceptsZero | bayespy/inference/vmp/nodes/dirichlet.py:51-52 | zero sample sizes pass the "positive" check |
| Dirichlet.PriorDimsFromValues | bayespy/inference/vmp/nodes/dirichlet.py:60-67 | `ValueError` exactly for 0-d input; otherwise `[(d,), ()]` with `d` the last axis of `alpha`, so `alpha`'s shape is its plates followed by `(d,)` |
| Dirichlet.PriorDimsMatchMoments | bayespy/inference/vmp/nodes/dirichlet.py:60-67 | `d` is the last axis of `alpha`: the first moment's shape is the plates followed by `(d,)` |
| Dirichlet.CheckProbabilities | bayespy/inference/vmp/nodes/dirichlet.py:81-85 | `ValueError` exactly for 0-d input or an entry outside [0,1] |
| Dirichlet.DimsFromValues | bayespy/inference/vmp/nodes/dirichlet.py:96-103 | `ValueError` exactly for 0-d input; otherwise `((D,),)` with `D` the last axis of `x` |
| Dirichlet.DimsOfCheckedProbabilities | bayespy/inference/vmp/nodes/dirichlet.py:96-103 | `D` is the last axis of the probabilities |
| Dirichlet.MessageToParent | bayespy/inference/vmp/nodes/dirichlet.py:112-116 | always `NotImplementedError` |
| Dirichlet.FixedMomentsAndF | bayespy/inference/vmp/nodes/dirichlet.py:150-154 | always `NotImplementedError` |
| Dirichlet.PhiFromParents | bayespy/inference/vmp/nodes/dirichlet.py:119-123 | `IndexError` for an empty moment list, otherwise exactly `[u_alpha[0]]` |
| Dirichlet.CgfFromParents | bayespy/inference/vmp/nodes/dirichlet.py:143-147 | `IndexError` when the parent has fewer than two moments, otherwise exactly `u_alpha[1]` |
| Dirichlet.FixedPriorParameters | bayespy/inference/vmp/nodes/dirichlet.py:119-147 | for a parent fixed to `alpha`, the natural parameter is exactly `[alpha]` and the cgf exactly the parent's second moment |
| Dirichlet.Constructor | bayespy/inference/vmp/nodes/dirichlet.py:167-184 | `D = alpha.dims[0][0]` (`IndexError` when missing), dims `((D,),)`, plates from `alpha.plates` |
| Dirichlet.ConstructorMatchesPrior | bayespy/inference/vmp/nodes/dirichlet.py:174-181 | a node under a fixed `alpha` has the dims of a probability vector of `alpha`'s last axis |

## Left out

- `Node`, `Moments`, `ExponentialFamily`, `Multinomial*` and `_total_plates` are not part of this model. `Node._add_child`/`_remove_child` are taken to add or remove one `(child, index)` pair of a set.
- `bayespy.utils.utils` is not part of this model. Its helpers get the minimal definitions their callers rely on:
  - `make_equal_length` pads on the left with ones;
  - `squeeze_to_dim` drops leading unit axes;
  - `multiply_shapes` multiplies padded shapes axis by axis;
  - `add_trailing_axes` and `add_leading_axes` append or prepend unit axes;
  - `repeat_to_shape` is numpy broadcasting;
  - `nans` gives an all-NaN array;
  - `isinteger` is the integer-versus-other distinction of the `Values` datatype.
- Floating-point arithmetic: numbers are exact reals, and NaN is a separate value that is never compared.
- `gammaln`, `psi` and `log` are not modelled. So the `z` moment of the Dirichlet prior, `compute_moments_and_cgf` and the log-probabilities of `DirichletMoments.compute_fixed_moments` are left out. That last one is reduced to its checks, `CheckProbabilities`.
- The `np.allclose` sum-to-one check and the renormalisation in `DirichletMoments.compute_fixed_moments` (floating-point tolerance) are not modelled.
- `random`, `show`, `save` and `load` (random number generation, printing, file I/O) are not modelled.
- `initialize_from_prior` in the stochastic constructor is not modelled.
- `_message_from_parents`, `_message_from_children` and `_update_mask` are not modelled. They belong to `Node`, so the moments, messages and gathered children mask they produce are parameters.
- The thin delegations of `CategoricalDistribution` to `MultinomialDistribution` are not modelled.
- Stochastic.StochasticNode.Update: only the base behaviour is modelled. A subclass's `_update_distribution_and_lowerbound` is unseen, and the base version raises.
- Deterministic.NodeGraph.AddNode: the stochastic parent registration that `Node.__init__` performs is modelled as `Register`. `Node.__init__` itself is not part of this model.
- Stochastic.StochasticNode.GetMoments: list aliasing is not modelled, because moments are values. A fresh list whose entries can be rebound independently is therefore the same as returning the moments.
- Stochastic.StochasticNode.SetMoments: `np.copyto` into an enlarged array is modelled as building the stored value, because there is no in-place aliasing of moment arrays.
- `set.remove` of a missing child (`KeyError`) is not modelled. `RemoveLink` removes nothing in that case.
- TileMessages.MessageToParent: requires the message to broadcast to the node's plates and dimensions. numpy would instead reshape any array of the right total size, reinterpreting its data.
- TileMessages.MaskToParent: requires the mask to broadcast to the node's plates, for the same reason.
- TileMessages.MessageTotal: it is stated as equal to the total of the message scaled by `r`. The separate lemma `Reductions.ScaleTotal` gives that this is `r` times the total.
- Negative tile counts are not modelled: tiles are natural numbers. A zero tile is modelled in the plates (`TilePlates.ParentPlates` gives the parent a plate of size 0, as numpy's `int64` floor division by zero does) but not in the messages and masks, listed next.
- TileMessages.MaskToParent, TileMessages.ComputeMaskToParent: require positive tiles. With a zero tile, the source behaves in one of two ways.
  - On an axis where the mask has length 1, that axis gets tile 1 and plate 1 and passes through unchanged.
  - On an axis where the mask has length 0 (the only other length that broadcasts to a zero plate), numpy reshapes onto zero-size axes and `np.any` gives an empty result.
  Neither case is modelled: the collapse runs `Replication.Reduce`, which requires positive tiles because `Replication.Fold` has no value for zero replicas.
- TileMessages.MessageToParent, TileMessages.ComputeOneMessage: require positive tiles. With a zero tile, the source behaves in one of two ways.
  - On an axis where the message has length 1, `r` becomes 0. The lemma `TileMessages.MultiplicityZero` proves this. The reshaped message is summed over non-empty axes and multiplied by 0, so the result is all zeros.
  - On an axis where the message has length 0, the sum is over zero-size axes and the result is empty.
  Neither case is modelled, for the same reason: `Replication.Reduce` requires positive tiles because `Replication.Fold` has no value for zero replicas.
- TileMessages.MessagesToParent, TileMessages.ComputeMessageToParent: require positive tiles when there is at least one message, for the same reason.
- Categorical.Constructor: `CategoricalMoments` takes `D` from the parent's dims, which are natural numbers. The `int`/negative check applies to the count given to `CategoricalDistribution` directly.
