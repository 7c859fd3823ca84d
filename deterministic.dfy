/** Child bookkeeping of `Deterministic` nodes
    (`bayespy/inference/vmp/nodes/deterministic.py`).

    The node graph is an arena: a node is a handle `n`, `parents[n]` lists its
    parents by handle (a node is built after its parents, so every parent
    handle is smaller), `deterministic[n]` says which kind of node it is and
    `children[n]` is its set of back-references `(child, index)`: `child`
    takes this node as its parent number `index`.

    A deterministic node is known to its parents only while it has children
    (ultimately stochastic ones): `_add_child` records the child and then
    registers the node with every parent, `_remove_child` removes the child
    and, once no child is left, removes the node from every parent. */
module Deterministic {
  datatype Link = Link(child: nat, index: nat)

  /** Parents are built first: every parent handle is smaller than its child's. */
  predicate Acyclic(ps: seq<seq<nat>>) {
    forall n, i :: 0 <= n < |ps| && 0 <= i < |ps[n]| ==> ps[n][i] < n
  }

  predicate WellFormed(ps: seq<seq<nat>>, det: seq<bool>, g: seq<set<Link>>) {
    |det| == |ps| && |g| == |ps| && Acyclic(ps)
  }

  /** Node `n` appears in the children of each of its parents, at that
      parent's position. */
  predicate Registered(ps: seq<seq<nat>>, g: seq<set<Link>>, n: nat)
    requires n < |ps| == |g| && Acyclic(ps)
  {
    forall i :: 0 <= i < |ps[n]| ==> Link(n, i) in g[ps[n][i]]
  }

  /** Node `n` appears in the children of none of its parents. */
  predicate Unregistered(ps: seq<seq<nat>>, g: seq<set<Link>>, n: nat)
    requires n < |ps| == |g| && Acyclic(ps)
  {
    forall i :: 0 <= i < |ps[n]| ==> Link(n, i) !in g[ps[n][i]]
  }

  /** A node that has a reason to receive messages: a stochastic node, or a
      deterministic node with at least one child. */
  predicate Active(det: seq<bool>, g: seq<set<Link>>, n: nat)
    requires n < |det| == |g|
  {
    !det[n] || g[n] != {}
  }

  /** Every recorded child is a node of the graph that takes this node as
      the recorded parent, and is active. */
  predicate Sound(ps: seq<seq<nat>>, det: seq<bool>, g: seq<set<Link>>)
    requires WellFormed(ps, det, g)
  {
    forall m, l :: 0 <= m < |g| && l in g[m] ==>
      l.child < |ps| && l.index < |ps[l.child]| && ps[l.child][l.index] == m && Active(det, g, l.child)
  }

  /** Every deterministic node with children is registered with its parents. */
  predicate Complete(ps: seq<seq<nat>>, det: seq<bool>, g: seq<set<Link>>)
    requires WellFormed(ps, det, g)
  {
    forall n :: 0 <= n < |g| && det[n] && g[n] != {} ==> Registered(ps, g, n)
  }

  /** The graph's invariant: a deterministic node is in its parents'
      children exactly when it has children of its own. */
  predicate Consistent(ps: seq<seq<nat>>, det: seq<bool>, g: seq<set<Link>>)
    requires WellFormed(ps, det, g)
  {
    Sound(ps, det, g) && Complete(ps, det, g)
  }

  predicate Grows(g: seq<set<Link>>, r: seq<set<Link>>) {
    |r| == |g| && forall n :: 0 <= n < |g| ==> g[n] <= r[n]
  }

  predicate Shrinks(g: seq<set<Link>>, r: seq<set<Link>>) {
    |r| == |g| && forall n :: 0 <= n < |g| ==> r[n] <= g[n]
  }

  /** `_add_child`: record `(child, index)` at `node`; a deterministic node
      then registers itself with each of its parents, in order. */
  function AddLink(ps: seq<seq<nat>>, det: seq<bool>, g: seq<set<Link>>, node: nat, child: nat, index: nat): (r: seq<set<Link>>)
    requires WellFormed(ps, det, g) && node < |g|
    ensures |r| == |g|
    decreases node, 1
  {
    var g1 := g[node := g[node] + {Link(child, index)}];
    if det[node] then Register(ps, det, g1, node, 0) else g1
  }

  /** The registration loop of `_add_child`, from parent number `ind` on. */
  function Register(ps: seq<seq<nat>>, det: seq<bool>, g: seq<set<Link>>, node: nat, ind: nat): (r: seq<set<Link>>)
    requires WellFormed(ps, det, g) && node < |g| && ind <= |ps[node]|
    ensures |r| == |g|
    decreases node, 0, |ps[node]| - ind
  {
    if ind == |ps[node]| then g
    else Register(ps, det, AddLink(ps, det, g, ps[node][ind], node, ind), node, ind + 1)
  }

  /** `_remove_child`: drop `(child, index)` from `node`; a deterministic node
      left without children then removes itself from each of its parents. */
  function RemoveLink(ps: seq<seq<nat>>, det: seq<bool>, g: seq<set<Link>>, node: nat, child: nat, index: nat): (r: seq<set<Link>>)
    requires WellFormed(ps, det, g) && node < |g|
    ensures |r| == |g|
    decreases node, 1
  {
    var g1 := g[node := g[node] - {Link(child, index)}];
    if det[node] && g1[node] == {} then Unregister(ps, det, g1, node, 0) else g1
  }

  /** The removal loop of `_remove_child`, from parent number `ind` on. */
  function Unregister(ps: seq<seq<nat>>, det: seq<bool>, g: seq<set<Link>>, node: nat, ind: nat): (r: seq<set<Link>>)
    requires WellFormed(ps, det, g) && node < |g| && ind <= |ps[node]|
    ensures |r| == |g|
    decreases node, 0, |ps[node]| - ind
  {
    if ind == |ps[node]| then g
    else Unregister(ps, det, RemoveLink(ps, det, g, ps[node][ind], node, ind), node, ind + 1)
  }

  /** `lower_bound_contribution`: a deterministic node is a delta
      distribution and adds nothing to the lower bound. */
  function LowerBoundContribution(gradient: bool): (r: real)
    ensures r == 0.0
  {
    0.0
  }

  // ---- What adding a child does ----

  lemma RegisteredGrows(ps: seq<seq<nat>>, g: seq<set<Link>>, r: seq<set<Link>>, n: nat)
    requires n < |ps| == |g| && Acyclic(ps) && Grows(g, r) && Registered(ps, g, n)
    ensures Registered(ps, r, n)
  {
  }

  /** `_add_child` records the child, registers a deterministic node with all
      of its parents, only adds links, leaves the nodes built after `node`
      alone and registers every deterministic node whose children it changed.
      A stochastic node's parents are untouched. */
  lemma {:induction false} AddLinkEffect(ps: seq<seq<nat>>, det: seq<bool>, g: seq<set<Link>>, node: nat, child: nat, index: nat)
    requires WellFormed(ps, det, g) && node < |g|
    ensures var r := AddLink(ps, det, g, node, child, index);
      Link(child, index) in r[node] && Grows(g, r) &&
      (det[node] ==> Registered(ps, r, node)) &&
      (!det[node] ==> forall n :: 0 <= n < |g| && n != node ==> r[n] == g[n]) &&
      (forall n :: node < n < |g| ==> r[n] == g[n]) &&
      (forall n :: 0 <= n < |g| && det[n] && r[n] != g[n] ==> Registered(ps, r, n)) &&
      (forall m, l: Link :: 0 <= m < |g| && l in r[m] && l !in g[m] ==>
         (m == node && l == Link(child, index)) || (l.child < |g| && det[l.child]))
    decreases node, 1
  {
    var g1 := g[node := g[node] + {Link(child, index)}];
    if det[node] {
      RegisterEffect(ps, det, g1, node, 0);
    }
  }

  lemma {:induction false} RegisterEffect(ps: seq<seq<nat>>, det: seq<bool>, g: seq<set<Link>>, node: nat, ind: nat)
    requires WellFormed(ps, det, g) && node < |g| && ind <= |ps[node]|
    ensures var r := Register(ps, det, g, node, ind);
      Grows(g, r) &&
      (forall i :: ind <= i < |ps[node]| ==> Link(node, i) in r[ps[node][i]]) &&
      (forall n :: node <= n < |g| ==> r[n] == g[n]) &&
      (forall n :: 0 <= n < |g| && det[n] && r[n] != g[n] ==> Registered(ps, r, n)) &&
      (forall m, l: Link :: 0 <= m < |g| && l in r[m] && l !in g[m] ==> l.child == node || (l.child < |g| && det[l.child]))
    decreases node, 0, |ps[node]| - ind
  {
    if ind < |ps[node]| {
      var h := AddLink(ps, det, g, ps[node][ind], node, ind);
      AddLinkEffect(ps, det, g, ps[node][ind], node, ind);
      RegisterEffect(ps, det, h, node, ind + 1);
      var r := Register(ps, det, h, node, ind + 1);
      forall n | 0 <= n < |g| && det[n] && r[n] != g[n] ensures Registered(ps, r, n) {
        if r[n] == h[n] {
          RegisteredGrows(ps, h, r, n);
        }
      }
    }
  }

  /** Adding a link keeps every recorded child sound, provided the new link
      is itself a back-reference of an active node. */
  lemma {:induction false} AddLinkSound(ps: seq<seq<nat>>, det: seq<bool>, g: seq<set<Link>>, node: nat, child: nat, index: nat)
    requires WellFormed(ps, det, g) && node < |g| && Sound(ps, det, g)
    requires child < |ps| && index < |ps[child]| && ps[child][index] == node && Active(det, g, child)
    ensures Sound(ps, det, AddLink(ps, det, g, node, child, index))
    decreases node, 1
  {
    var g1 := g[node := g[node] + {Link(child, index)}];
    assert Grows(g, g1);
    SoundGrows(ps, det, g, g1, Link(child, index), node);
    if det[node] {
      RegisterSound(ps, det, g1, node, 0);
    }
  }

  /** A link added to `node` on top of a sound graph, to a graph that only
      grew, keeps it sound. */
  lemma SoundGrows(ps: seq<seq<nat>>, det: seq<bool>, g: seq<set<Link>>, g1: seq<set<Link>>, l: Link, node: nat)
    requires WellFormed(ps, det, g) && Sound(ps, det, g) && node < |g|
    requires g1 == g[node := g[node] + {l}]
    requires l.child < |ps| && l.index < |ps[l.child]| && ps[l.child][l.index] == node && Active(det, g, l.child)
    ensures WellFormed(ps, det, g1) && Sound(ps, det, g1)
  {
    forall m, k: Link | 0 <= m < |g1| && k in g1[m]
      ensures k.child < |ps| && k.index < |ps[k.child]| && ps[k.child][k.index] == m && Active(det, g1, k.child)
    {
      assert g[k.child] <= g1[k.child];
    }
  }

  lemma {:induction false} RegisterSound(ps: seq<seq<nat>>, det: seq<bool>, g: seq<set<Link>>, node: nat, ind: nat)
    requires WellFormed(ps, det, g) && node < |g| && ind <= |ps[node]|
    requires Sound(ps, det, g) && Active(det, g, node)
    ensures Sound(ps, det, Register(ps, det, g, node, ind))
    decreases node, 0, |ps[node]| - ind
  {
    if ind < |ps[node]| {
      var h := AddLink(ps, det, g, ps[node][ind], node, ind);
      AddLinkSound(ps, det, g, ps[node][ind], node, ind);
      AddLinkEffect(ps, det, g, ps[node][ind], node, ind);
      RegisterSound(ps, det, h, node, ind + 1);
    }
  }

  /** `_add_child` keeps the graph consistent when the new child is active:
      a stochastic node, or a deterministic node that has children (the only
      callers the source has). */
  lemma AddLinkConsistent(ps: seq<seq<nat>>, det: seq<bool>, g: seq<set<Link>>, node: nat, child: nat, index: nat)
    requires WellFormed(ps, det, g) && node < |g| && Consistent(ps, det, g)
    requires child < |ps| && index < |ps[child]| && ps[child][index] == node && Active(det, g, child)
    ensures Consistent(ps, det, AddLink(ps, det, g, node, child, index))
  {
    var r := AddLink(ps, det, g, node, child, index);
    AddLinkSound(ps, det, g, node, child, index);
    AddLinkEffect(ps, det, g, node, child, index);
    forall n | 0 <= n < |r| && det[n] && r[n] != {} ensures Registered(ps, r, n) {
      if g[n] != {} && r[n] == g[n] {
        RegisteredGrows(ps, g, r, n);
      }
    }
  }

  // ---- What removing a child does ----

  /** `_remove_child` drops the child, only removes links, leaves the nodes
      built after `node` alone, removes from all of its parents a
      deterministic node left without children and any other deterministic
      node it empties, and removes no other link. While `node` keeps a child
      (or is stochastic) its parents are untouched. */
  lemma {:induction false} RemoveLinkEffect(ps: seq<seq<nat>>, det: seq<bool>, g: seq<set<Link>>, node: nat, child: nat, index: nat)
    requires WellFormed(ps, det, g) && node < |g|
    ensures var r := RemoveLink(ps, det, g, node, child, index);
      Link(child, index) !in r[node] && Shrinks(g, r) &&
      r[node] == g[node] - {Link(child, index)} &&
      (det[node] && r[node] == {} ==> Unregistered(ps, r, node)) &&
      (!det[node] || r[node] != {} ==> forall n :: 0 <= n < |g| && n != node ==> r[n] == g[n]) &&
      (forall n :: node < n < |g| ==> r[n] == g[n]) &&
      (forall n :: 0 <= n < |g| && det[n] && r[n] == {} && g[n] != {} ==> Unregistered(ps, r, n)) &&
      (forall m, l :: 0 <= m < |g| && l in g[m] && l !in r[m] ==>
         (m == node && l == Link(child, index)) || (l.child < |g| && det[l.child] && r[l.child] == {}))
    decreases node, 1
  {
    var g1 := g[node := g[node] - {Link(child, index)}];
    if det[node] && g1[node] == {} {
      UnregisterEffect(ps, det, g1, node, 0);
    }
  }

  lemma {:induction false} UnregisterEffect(ps: seq<seq<nat>>, det: seq<bool>, g: seq<set<Link>>, node: nat, ind: nat)
    requires WellFormed(ps, det, g) && node < |g| && ind <= |ps[node]|
    requires det[node] && g[node] == {}
    ensures var r := Unregister(ps, det, g, node, ind);
      Shrinks(g, r) &&
      (forall i :: ind <= i < |ps[node]| ==> Link(node, i) !in r[ps[node][i]]) &&
      (forall n :: node <= n < |g| ==> r[n] == g[n]) &&
      (forall n :: 0 <= n < |g| && det[n] && r[n] == {} && g[n] != {} ==> Unregistered(ps, r, n)) &&
      (forall m, l :: 0 <= m < |g| && l in g[m] && l !in r[m] ==> l.child < |g| && det[l.child] && r[l.child] == {})
    decreases node, 0, |ps[node]| - ind
  {
    if ind < |ps[node]| {
      var h := RemoveLink(ps, det, g, ps[node][ind], node, ind);
      RemoveLinkEffect(ps, det, g, ps[node][ind], node, ind);
      UnregisterEffect(ps, det, h, node, ind + 1);
      var r := Unregister(ps, det, h, node, ind + 1);
      forall n | 0 <= n < |g| && det[n] && r[n] == {} && g[n] != {} ensures Unregistered(ps, r, n) {
        if h[n] == {} {
          UnregisteredShrinks(ps, h, r, n);
        }
      }
      forall m, l: Link | 0 <= m < |g| && l in g[m] && l !in r[m]
        ensures l.child < |g| && det[l.child] && r[l.child] == {}
      {
        if l in h[m] {
        } else if l.child < |g| && det[l.child] && h[l.child] == {} {
          assert r[l.child] <= h[l.child];
        }
      }
    }
  }

  lemma UnregisteredShrinks(ps: seq<seq<nat>>, g: seq<set<Link>>, r: seq<set<Link>>, n: nat)
    requires n < |ps| == |g| && Acyclic(ps) && Shrinks(g, r) && Unregistered(ps, g, n)
    ensures Unregistered(ps, r, n)
  {
  }

  /** `_remove_child` keeps the graph consistent when the child removed is
      not a deterministic node that still has children (a stochastic child
      being detached, or an emptied deterministic node). */
  lemma RemoveLinkConsistent(ps: seq<seq<nat>>, det: seq<bool>, g: seq<set<Link>>, node: nat, child: nat, index: nat)
    requires WellFormed(ps, det, g) && node < |g| && Consistent(ps, det, g)
    requires child < |g| && det[child] ==> g[child] == {}
    ensures Consistent(ps, det, RemoveLink(ps, det, g, node, child, index))
  {
    var r := RemoveLink(ps, det, g, node, child, index);
    RemoveLinkEffect(ps, det, g, node, child, index);
    forall m, l: Link | 0 <= m < |r| && l in r[m]
      ensures l.child < |ps| && l.index < |ps[l.child]| && ps[l.child][l.index] == m && Active(det, r, l.child)
    {
      assert l in g[m];
    }
    forall n | 0 <= n < |r| && det[n] && r[n] != {} ensures Registered(ps, r, n) {
      assert g[n] != {};
      forall i | 0 <= i < |ps[n]| ensures Link(n, i) in r[ps[n][i]] {
        assert Link(n, i) in g[ps[n][i]];
      }
    }
  }

  // ---- A consistent graph is fixed by its stochastic children ----

  /** Every link of `g` from a child that is not a deterministic node of
      the graph is also in `s`. */
  predicate StochasticLinksIn(det: seq<bool>, g: seq<set<Link>>, s: seq<set<Link>>)
    requires |g| == |s|
  {
    forall m, l: Link :: 0 <= m < |g| && l in g[m] && !(l.child < |det| && det[l.child]) ==> l in s[m]
  }

  /** Two consistent graphs over the same nodes that agree on the links
      from stochastic children are equal: the links from deterministic
      children follow from the invariant. */
  lemma ConsistentUnique(ps: seq<seq<nat>>, det: seq<bool>, g: seq<set<Link>>, s: seq<set<Link>>)
    requires WellFormed(ps, det, g) && WellFormed(ps, det, s)
    requires Consistent(ps, det, g) && Consistent(ps, det, s)
    requires StochasticLinksIn(det, g, s) && StochasticLinksIn(det, s, g)
    ensures g == s
  {
    ConsistentUniqueFrom(ps, det, g, s, 0);
  }

  lemma {:induction false} ConsistentUniqueFrom(ps: seq<seq<nat>>, det: seq<bool>, g: seq<set<Link>>, s: seq<set<Link>>, k: nat)
    requires WellFormed(ps, det, g) && WellFormed(ps, det, s) && k <= |g|
    requires Consistent(ps, det, g) && Consistent(ps, det, s)
    requires StochasticLinksIn(det, g, s) && StochasticLinksIn(det, s, g)
    ensures forall m :: k <= m < |g| ==> g[m] == s[m]
    decreases |g| - k
  {
    if k < |g| {
      ConsistentUniqueFrom(ps, det, g, s, k + 1);
      LinksAt(ps, det, g, s, k);
      LinksAt(ps, det, s, g, k);
    }
  }

  /** One node's links of `g` are in `s` once the nodes built after it agree. */
  lemma LinksAt(ps: seq<seq<nat>>, det: seq<bool>, g: seq<set<Link>>, s: seq<set<Link>>, k: nat)
    requires WellFormed(ps, det, g) && WellFormed(ps, det, s) && k < |g|
    requires Sound(ps, det, g) && Complete(ps, det, s) && StochasticLinksIn(det, g, s)
    requires forall m :: k < m < |g| ==> g[m] == s[m]
    ensures g[k] <= s[k]
  {
    forall l | l in g[k] ensures l in s[k] {
      if l.child < |det| && det[l.child] {
        assert Registered(ps, s, l.child);
      }
    }
  }

  /** Adding a new stochastic child and removing it again gives back the
      graph, whatever the deterministic nodes in between registered. */
  lemma AddRemoveRoundTrip(ps: seq<seq<nat>>, det: seq<bool>, g: seq<set<Link>>, node: nat, child: nat, index: nat)
    requires WellFormed(ps, det, g) && node < |g| && Consistent(ps, det, g)
    requires child < |ps| && index < |ps[child]| && ps[child][index] == node && !det[child]
    requires Link(child, index) !in g[node]
    ensures RemoveLink(ps, det, AddLink(ps, det, g, node, child, index), node, child, index) == g
  {
    var r := AddLink(ps, det, g, node, child, index);
    AddLinkConsistent(ps, det, g, node, child, index);
    AddLinkEffect(ps, det, g, node, child, index);
    var s := RemoveLink(ps, det, r, node, child, index);
    RemoveLinkConsistent(ps, det, r, node, child, index);
    RemoveLinkEffect(ps, det, r, node, child, index);
    ConsistentUnique(ps, det, s, g);
  }

  /** Removing a stochastic child and adding it back gives back the graph. */
  lemma RemoveAddRoundTrip(ps: seq<seq<nat>>, det: seq<bool>, g: seq<set<Link>>, node: nat, child: nat, index: nat)
    requires WellFormed(ps, det, g) && node < |g| && Consistent(ps, det, g)
    requires child < |ps| && !det[child]
    requires Link(child, index) in g[node]
    ensures AddLink(ps, det, RemoveLink(ps, det, g, node, child, index), node, child, index) == g
  {
    var r := RemoveLink(ps, det, g, node, child, index);
    RemoveLinkConsistent(ps, det, g, node, child, index);
    RemoveLinkEffect(ps, det, g, node, child, index);
    var s := AddLink(ps, det, r, node, child, index);
    AddLinkConsistent(ps, det, r, node, child, index);
    AddLinkEffect(ps, det, r, node, child, index);
    ConsistentUnique(ps, det, s, g);
  }

  /** The node graph: an arena of nodes whose children sets the methods
      update in place. */
  class NodeGraph {
    var parents: seq<seq<nat>>
    var deterministic: seq<bool>
    var children: seq<set<Link>>

    ghost predicate Valid()
      reads this
    {
      WellFormed(parents, deterministic, children) && Consistent(parents, deterministic, children)
    }

    constructor()
      ensures Valid() && parents == [] && deterministic == [] && children == []
    {
      parents, deterministic, children := [], [], [];
    }

    /** A new node with the given parents and no children. A deterministic
        node does not notify its parents (`notify_parents=False`); a
        stochastic one registers with each of them. */
    method AddNode(ps: seq<nat>, det: bool) returns (n: nat)
      requires Valid() && forall i :: 0 <= i < |ps| ==> ps[i] < |parents|
      modifies this
      ensures Valid() && n == |old(parents)|
      ensures parents == old(parents) + [ps] && deterministic == old(deterministic) + [det]
      ensures det ==> children == old(children) + [{}]
      ensures !det ==> children == Register(parents, deterministic, old(children) + [{}], n, 0)
    {
      n := |parents|;
      parents, deterministic, children := parents + [ps], deterministic + [det], children + [{}];
      assert WellFormed(parents, deterministic, children);
      assert Consistent(parents, deterministic, children) by {
        assert forall m :: 0 <= m < n ==> children[m] == old(children)[m];
      }
      if !det {
        ghost var g0 := children;
        var ind := 0;
        while ind < |ps|
          invariant 0 <= ind <= |ps| && parents == old(parents) + [ps] && deterministic == old(deterministic) + [det]
          invariant WellFormed(parents, deterministic, children) && Consistent(parents, deterministic, children)
          invariant Register(parents, deterministic, children, n, ind) == Register(parents, deterministic, g0, n, 0)
        {
          AddLinkConsistent(parents, deterministic, children, ps[ind], n, ind);
          AddChild(ps[ind], n, ind);
          ind := ind + 1;
        }
      }
    }

    /** `_add_child(child, index)` of this graph's node `node`. */
    method AddChild(node: nat, child: nat, index: nat)
      requires WellFormed(parents, deterministic, children) && node < |children|
      modifies this
      ensures parents == old(parents) && deterministic == old(deterministic)
      ensures children == AddLink(parents, deterministic, old(children), node, child, index)
      ensures (old(Valid()) && child < |parents| && index < |parents[child]| && parents[child][index] == node &&
               Active(deterministic, old(children), child)) ==> Valid()
      decreases node
    {
      ghost var g0 := children;
      children := children[node := children[node] + {Link(child, index)}];
      if deterministic[node] {
        ghost var g1 := children;
        var ind := 0;
        while ind < |parents[node]|
          invariant parents == old(parents) && deterministic == old(deterministic)
          invariant node < |parents| && 0 <= ind <= |parents[node]|
          invariant WellFormed(parents, deterministic, children)
          invariant Register(parents, deterministic, children, node, ind) == Register(parents, deterministic, g1, node, 0)
        {
          AddChild(parents[node][ind], node, ind);
          ind := ind + 1;
        }
      }
      if Consistent(parents, deterministic, g0) && child < |parents| && index < |parents[child]| &&
         parents[child][index] == node && Active(deterministic, g0, child) {
        AddLinkConsistent(parents, deterministic, g0, node, child, index);
      }
    }

    /** `_remove_child(child, index)` of this graph's node `node`. */
    method RemoveChild(node: nat, child: nat, index: nat)
      requires WellFormed(parents, deterministic, children) && node < |children|
      modifies this
      ensures parents == old(parents) && deterministic == old(deterministic)
      ensures children == RemoveLink(parents, deterministic, old(children), node, child, index)
      ensures old(Valid()) && (child < |children| && deterministic[child] ==> old(children)[child] == {}) ==> Valid()
      decreases node
    {
      ghost var g0 := children;
      children := children[node := children[node] - {Link(child, index)}];
      if deterministic[node] && children[node] == {} {
        ghost var g1 := children;
        var ind := 0;
        while ind < |parents[node]|
          invariant parents == old(parents) && deterministic == old(deterministic)
          invariant node < |parents| && 0 <= ind <= |parents[node]|
          invariant WellFormed(parents, deterministic, children)
          invariant Unregister(parents, deterministic, children, node, ind) == Unregister(parents, deterministic, g1, node, 0)
        {
          RemoveChild(parents[node][ind], node, ind);
          ind := ind + 1;
        }
      }
      if Consistent(parents, deterministic, g0) && (child < |g0| && deterministic[child] ==> g0[child] == {}) {
        RemoveLinkConsistent(parents, deterministic, g0, node, child, index);
      }
    }
  }
}
