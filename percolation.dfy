/** Bond percolation on a pore network, stated by reachability.

    The network is a list of throats, each joining two pores. A boolean mask over
    the throats says which are open. Three labelling helpers are modelled:
    `BondPercolation` (clusters of pores joined by open throats),
    `FindConnectedClusters` (keep only clusters that hold a source pore) and
    `FindTrappedClusters` (clusters of the non-occupied sub-network that cannot
    reach an outlet). A label is -1 for a pore or throat that is unreached or
    filtered out, and a non-negative cluster number otherwise. The numbering
    itself carries no meaning: only which pores share a label does. */
module Percolation {

  /** `throat.conns`: throat t joins pores conns[t].0 and conns[t].1. */
  type Conns = seq<(nat, nat)>

  /** Cluster labels of every pore (`sites`) and every throat (`bonds`). */
  datatype Labels = Labels(sites: seq<int>, bonds: seq<int>)

  /** Every throat end is one of the network's np pores. */
  predicate ValidConns(conns: Conns, np: nat)
  {
    forall t :: 0 <= t < |conns| ==> conns[t].0 < np && conns[t].1 < np
  }

  /** Pore s is an end of some open throat. */
  predicate Touches(conns: Conns, open: seq<bool>, s: nat)
    requires |open| == |conns|
  {
    exists t :: 0 <= t < |conns| && open[t] && (conns[t].0 == s || conns[t].1 == s)
  }

  /** Throat t is open and joins a and b (in either orientation). */
  ghost predicate Joins(conns: Conns, open: seq<bool>, t: int, a: nat, b: nat)
    requires |open| == |conns|
  {
    0 <= t < |conns| && open[t] &&
    ((conns[t].0 == a && conns[t].1 == b) || (conns[t].0 == b && conns[t].1 == a))
  }

  ghost predicate Adjacent(conns: Conns, open: seq<bool>, a: nat, b: nat)
    requires |open| == |conns|
  {
    exists t :: Joins(conns, open, t, a, b)
  }

  /** A walk through open throats. */
  ghost predicate IsPath(conns: Conns, open: seq<bool>, p: seq<nat>)
    requires |open| == |conns|
  {
    |p| > 0 && forall k :: 0 <= k < |p| - 1 ==> Adjacent(conns, open, p[k], p[k + 1])
  }

  /** Pores a and b lie in the same cluster of open throats. */
  ghost predicate Linked(conns: Conns, open: seq<bool>, a: nat, b: nat)
    requires |open| == |conns|
  {
    exists p :: IsPath(conns, open, p) && p[0] == a && p[|p| - 1] == b
  }

  /** Some source pore is linked to pore s. */
  ghost predicate FedBy(conns: Conns, open: seq<bool>, sources: seq<bool>, s: nat)
    requires |open| == |conns|
  {
    exists i :: 0 <= i < |sources| && sources[i] && Linked(conns, open, i, s)
  }

  // ---------------------------------------------------------------------------
  // Properties of Linked

  lemma LinkedRefl(conns: Conns, open: seq<bool>, a: nat)
    requires |open| == |conns|
    ensures Linked(conns, open, a, a)
  {
    assert IsPath(conns, open, [a]);
  }

  lemma LinkedStep(conns: Conns, open: seq<bool>, a: nat, b: nat, c: nat)
    requires |open| == |conns|
    requires Adjacent(conns, open, a, b) && Linked(conns, open, b, c)
    ensures Linked(conns, open, a, c)
  {
    var p :| IsPath(conns, open, p) && p[0] == b && p[|p| - 1] == c;
    var q := [a] + p;
    forall k | 0 <= k < |q| - 1
      ensures Adjacent(conns, open, q[k], q[k + 1])
    {
      if k > 0 {
        assert q[k] == p[k - 1] && q[k + 1] == p[k];
      }
    }
    assert IsPath(conns, open, q) && q[0] == a && q[|q| - 1] == c;
  }

  lemma AdjacentSym(conns: Conns, open: seq<bool>, a: nat, b: nat)
    requires |open| == |conns|
    requires Adjacent(conns, open, a, b)
    ensures Adjacent(conns, open, b, a)
  {
    var t :| Joins(conns, open, t, a, b);
    assert Joins(conns, open, t, b, a);
  }

  lemma LinkedSym(conns: Conns, open: seq<bool>, a: nat, b: nat)
    requires |open| == |conns|
    requires Linked(conns, open, a, b)
    ensures Linked(conns, open, b, a)
  {
    var p :| IsPath(conns, open, p) && p[0] == a && p[|p| - 1] == b;
    var n := |p|;
    var q := seq(n, i requires 0 <= i < n => p[n - 1 - i]);
    forall k | 0 <= k < n - 1
      ensures Adjacent(conns, open, q[k], q[k + 1])
    {
      assert Adjacent(conns, open, p[n - 2 - k], p[n - 1 - k]);
      AdjacentSym(conns, open, p[n - 2 - k], p[n - 1 - k]);
    }
    assert IsPath(conns, open, q) && q[0] == b && q[n - 1] == a;
  }

  lemma LinkedTrans(conns: Conns, open: seq<bool>, a: nat, b: nat, c: nat)
    requires |open| == |conns|
    requires Linked(conns, open, a, b) && Linked(conns, open, b, c)
    ensures Linked(conns, open, a, c)
  {
    var p :| IsPath(conns, open, p) && p[0] == a && p[|p| - 1] == b;
    var r :| IsPath(conns, open, r) && r[0] == b && r[|r| - 1] == c;
    var q := p + r[1..];
    forall k | 0 <= k < |q| - 1
      ensures Adjacent(conns, open, q[k], q[k + 1])
    {
      if k < |p| - 1 {
        assert q[k] == p[k] && q[k + 1] == p[k + 1];
      } else {
        var j := k - (|p| - 1);
        assert q[k] == r[j] && q[k + 1] == r[j + 1];
      }
    }
    assert IsPath(conns, open, q) && q[0] == a && q[|q| - 1] == c;
  }

  /** A pore linked to a different pore is an end of an open throat. */
  lemma LinkedTouches(conns: Conns, open: seq<bool>, a: nat, b: nat)
    requires |open| == |conns|
    requires Linked(conns, open, a, b) && a != b
    ensures Touches(conns, open, a)
  {
    var p :| IsPath(conns, open, p) && p[0] == a && p[|p| - 1] == b;
    assert Adjacent(conns, open, p[0], p[1]);
    var t :| Joins(conns, open, t, a, p[1]);
  }

  /** Opening more throats never cuts a pore off from the sources that fed it. */
  lemma FedMonotone(conns: Conns, open: seq<bool>, wider: seq<bool>, sources: seq<bool>, s: nat)
    requires |open| == |conns| && |wider| == |conns|
    requires forall t :: 0 <= t < |conns| && open[t] ==> wider[t]
    requires FedBy(conns, open, sources, s)
    ensures FedBy(conns, wider, sources, s)
  {
    var i :| 0 <= i < |sources| && sources[i] && Linked(conns, open, i, s);
    LinkedMonotone(conns, open, wider, i, s);
  }

  /** Opening more throats never disconnects two pores. */
  lemma {:induction false} LinkedMonotone(conns: Conns, open: seq<bool>, wider: seq<bool>, a: nat, b: nat)
    requires |open| == |conns| && |wider| == |conns|
    requires forall t :: 0 <= t < |conns| && open[t] ==> wider[t]
    requires Linked(conns, open, a, b)
    ensures Linked(conns, wider, a, b)
  {
    var p :| IsPath(conns, open, p) && p[0] == a && p[|p| - 1] == b;
    forall k | 0 <= k < |p| - 1
      ensures Adjacent(conns, wider, p[k], p[k + 1])
    {
      assert Adjacent(conns, open, p[k], p[k + 1]);
      var t :| Joins(conns, open, t, p[k], p[k + 1]);
      assert Joins(conns, wider, t, p[k], p[k + 1]);
    }
    assert IsPath(conns, wider, p);
  }

  // ---------------------------------------------------------------------------
  // Computing a cluster: the closure of a pore set under open throats

  /** Every member of s is a pore index below np. */
  ghost predicate Bounded(s: set<nat>, np: nat)
  {
    forall x :: x in s ==> x < np
  }

  ghost function Below(n: nat): (r: set<nat>)
    ensures |r| == n && forall x: nat :: x in r <==> x < n
  {
    if n == 0 then {} else Below(n - 1) + {n - 1}
  }

  lemma BoundedCard(s: set<nat>, np: nat)
    requires Bounded(s, np)
    ensures |s| <= np
  {
    SubsetCard(s, Below(np));
  }

  lemma SubsetCard<T>(a: set<T>, b: set<T>)
    requires a <= b
    ensures |a| <= |b|
    ensures a != b ==> |a| < |b|
  {
    assert b == a + (b - a);
    assert a * (b - a) == {};
    if a != b {
      var x :| x in b && x !in a;
      assert x in b - a;
    }
  }

  /** One round of growth: add both ends of every open throat with an end in s. */
  function Grow(conns: Conns, open: seq<bool>, s: set<nat>): set<nat>
    requires |open| == |conns|
  {
    s
    + (set t | 0 <= t < |conns| && open[t] && conns[t].0 in s :: conns[t].1)
    + (set t | 0 <= t < |conns| && open[t] && conns[t].1 in s :: conns[t].0)
  }

  /** The least superset of s closed under Grow. */
  function Closure(conns: Conns, open: seq<bool>, np: nat, s: set<nat>): (c: set<nat>)
    requires |open| == |conns| && ValidConns(conns, np) && Bounded(s, np)
    ensures s <= c && Bounded(c, np)
    decreases np - |s|
  {
    var g := Grow(conns, open, s);
    if g == s then s
    else
      BoundedCard(g, np);
      SubsetCard(s, g);
      Closure(conns, open, np, g)
  }

  lemma {:induction false} ClosureFixed(conns: Conns, open: seq<bool>, np: nat, s: set<nat>)
    requires |open| == |conns| && ValidConns(conns, np) && Bounded(s, np)
    ensures Grow(conns, open, Closure(conns, open, np, s)) == Closure(conns, open, np, s)
    decreases np - |s|
  {
    var g := Grow(conns, open, s);
    if g != s {
      BoundedCard(g, np);
      SubsetCard(s, g);
      ClosureFixed(conns, open, np, g);
    }
  }

  /** Everything in the closure is linked to a pore of s. */
  lemma {:induction false} ClosureSound(conns: Conns, open: seq<bool>, np: nat, s: set<nat>, x: nat)
    requires |open| == |conns| && ValidConns(conns, np) && Bounded(s, np)
    requires x in Closure(conns, open, np, s)
    ensures exists a :: a in s && Linked(conns, open, a, x)
    decreases np - |s|
  {
    var g := Grow(conns, open, s);
    if g == s {
      LinkedRefl(conns, open, x);
    } else {
      BoundedCard(g, np);
      SubsetCard(s, g);
      ClosureSound(conns, open, np, g, x);
      var a :| a in g && Linked(conns, open, a, x);
      if a !in s {
        var t :| 0 <= t < |conns| && open[t] &&
          ((conns[t].0 in s && conns[t].1 == a) || (conns[t].1 in s && conns[t].0 == a));
        var b := if conns[t].0 in s && conns[t].1 == a then conns[t].0 else conns[t].1;
        assert Joins(conns, open, t, b, a);
        LinkedStep(conns, open, b, a, x);
      }
    }
  }

  /** A set closed under Grow holds every pore linked to one of its members. */
  lemma ClosedHoldsLinked(conns: Conns, open: seq<bool>, c: set<nat>, a: nat, x: nat)
    requires |open| == |conns| && Grow(conns, open, c) == c
    requires a in c && Linked(conns, open, a, x)
    ensures x in c
  {
    var p :| IsPath(conns, open, p) && p[0] == a && p[|p| - 1] == x;
    var k := 0;
    while k < |p| - 1
      invariant 0 <= k <= |p| - 1
      invariant p[k] in c
    {
      assert Adjacent(conns, open, p[k], p[k + 1]);
      var t :| Joins(conns, open, t, p[k], p[k + 1]);
      if conns[t].0 == p[k] {
        assert p[k + 1] in (set t | 0 <= t < |conns| && open[t] && conns[t].0 in c :: conns[t].1);
      } else {
        assert p[k + 1] in (set t | 0 <= t < |conns| && open[t] && conns[t].1 in c :: conns[t].0);
      }
      k := k + 1;
    }
  }

  /** The cluster of pore a, computed as a closure, is exactly the set of pores linked to a. */
  lemma ClusterOf(conns: Conns, open: seq<bool>, np: nat, a: nat, x: nat)
    requires |open| == |conns| && ValidConns(conns, np) && a < np
    ensures x in Closure(conns, open, np, {a}) <==> Linked(conns, open, a, x)
  {
    if x in Closure(conns, open, np, {a}) {
      ClosureSound(conns, open, np, {a}, x);
    }
    if Linked(conns, open, a, x) {
      ClosureFixed(conns, open, np, {a});
      ClosedHoldsLinked(conns, open, Closure(conns, open, np, {a}), a, x);
    }
  }

  // ---------------------------------------------------------------------------
  // bond_percolation

  /** The least k with from <= k < np and k in s, or -1 when there is none. */
  function LeastFrom(s: set<nat>, from: nat, np: nat): (k: int)
    ensures k == -1 || (from <= k < np && k in s)
    ensures forall j :: from <= j < np && (k == -1 || j < k) ==> j !in s
    decreases np - from
  {
    if from >= np then -1
    else if from in s then from
    else LeastFrom(s, from + 1, np)
  }

  /** A pore's label: -1 when it touches no open throat, else the least pore index of its cluster. */
  function SiteLabel(conns: Conns, open: seq<bool>, np: nat, s: nat): int
    requires |open| == |conns| && ValidConns(conns, np) && s < np
  {
    if Touches(conns, open, s) then LeastFrom(Closure(conns, open, np, {s}), 0, np) else -1
  }

  /** `bond_percolation(conns, open)`: cluster labels over the open throats. */
  function BondPercolation(conns: Conns, open: seq<bool>, np: nat): (r: Labels)
    requires |open| == |conns| && ValidConns(conns, np)
    ensures |r.sites| == np && |r.bonds| == |conns|
  {
    Labels(
      seq(np, s requires 0 <= s < np => SiteLabel(conns, open, np, s)),
      seq(|conns|, t requires 0 <= t < |conns| =>
        if open[t] then SiteLabel(conns, open, np, conns[t].0) else -1))
  }

  /** Two pores of one cluster get one label; pores of different clusters get different labels. */
  lemma SameCluster(conns: Conns, open: seq<bool>, np: nat, a: nat, b: nat)
    requires |open| == |conns| && ValidConns(conns, np) && a < np && b < np
    ensures LeastFrom(Closure(conns, open, np, {a}), 0, np) >= 0
    ensures LeastFrom(Closure(conns, open, np, {a}), 0, np) == LeastFrom(Closure(conns, open, np, {b}), 0, np)
        <==> Linked(conns, open, a, b)
  {
    var ca, cb := Closure(conns, open, np, {a}), Closure(conns, open, np, {b});
    assert a in ca;
    if Linked(conns, open, a, b) {
      forall x | true
        ensures x in ca <==> x in cb
      {
        ClusterOf(conns, open, np, a, x);
        ClusterOf(conns, open, np, b, x);
        if Linked(conns, open, a, x) {
          LinkedSym(conns, open, a, b);
          LinkedTrans(conns, open, b, a, x);
        }
        if Linked(conns, open, b, x) {
          LinkedTrans(conns, open, a, b, x);
        }
      }
      assert ca == cb;
    }
    var k := LeastFrom(ca, 0, np);
    if k == LeastFrom(cb, 0, np) {
      assert b in cb;
      ClusterOf(conns, open, np, a, k);
      ClusterOf(conns, open, np, b, k);
      LinkedSym(conns, open, b, k);
      LinkedTrans(conns, open, a, k, b);
    }
  }

  /** The labels of `BondPercolation` describe exactly the clusters of open throats:
      a pore is labelled iff it ends an open throat, two labelled pores share a label iff
      they are linked, a throat is labelled iff it is open, and then with its ends' label. */
  lemma BondPercolationClusters(conns: Conns, open: seq<bool>, np: nat)
    requires |open| == |conns| && ValidConns(conns, np)
    ensures var r := BondPercolation(conns, open, np);
      && (forall s :: 0 <= s < np ==> (r.sites[s] >= 0 <==> Touches(conns, open, s)))
      && (forall s :: 0 <= s < np && r.sites[s] < 0 ==> r.sites[s] == -1)
      && (forall a, b :: 0 <= a < np && 0 <= b < np && r.sites[a] >= 0 && r.sites[b] >= 0 ==>
            (r.sites[a] == r.sites[b] <==> Linked(conns, open, a, b)))
      && (forall t :: 0 <= t < |conns| ==> (r.bonds[t] >= 0 <==> open[t]))
      && (forall t :: 0 <= t < |conns| && r.bonds[t] < 0 ==> r.bonds[t] == -1)
      && (forall t :: 0 <= t < |conns| && open[t] ==>
            r.bonds[t] == r.sites[conns[t].0] && r.bonds[t] == r.sites[conns[t].1])
  {
    var r := BondPercolation(conns, open, np);
    forall s | 0 <= s < np
      ensures r.sites[s] >= 0 <==> Touches(conns, open, s)
    {
      SameCluster(conns, open, np, s, s);
    }
    forall a, b | 0 <= a < np && 0 <= b < np && r.sites[a] >= 0 && r.sites[b] >= 0
      ensures r.sites[a] == r.sites[b] <==> Linked(conns, open, a, b)
    {
      SameCluster(conns, open, np, a, b);
    }
    forall t | 0 <= t < |conns| && open[t]
      ensures r.bonds[t] >= 0
      ensures r.bonds[t] == r.sites[conns[t].0] && r.bonds[t] == r.sites[conns[t].1]
    {
      var u, v := conns[t].0, conns[t].1;
      assert Touches(conns, open, u) && Touches(conns, open, v);
      assert Joins(conns, open, t, u, v);
      LinkedRefl(conns, open, v);
      LinkedStep(conns, open, u, v, v);
      SameCluster(conns, open, np, u, v);
    }
  }

  // ---------------------------------------------------------------------------
  // find_connected_clusters

  /** Some source pore carries this label. */
  predicate LabelHit(sites: seq<int>, sources: seq<bool>, lbl: int)
    requires |sources| == |sites|
  {
    exists i :: 0 <= i < |sites| && sources[i] && sites[i] == lbl
  }

  /** `find_connected_clusters(b_labels, s_labels, sources, asmask=False)`: labels of
      clusters that hold a source pore are kept, all others become -1. */
  function FindConnectedClusters(bonds: seq<int>, sites: seq<int>, sources: seq<bool>): (r: Labels)
    requires |sources| == |sites|
    ensures |r.sites| == |sites| && |r.bonds| == |bonds|
    ensures forall s :: 0 <= s < |sites| ==>
      (r.sites[s] >= 0 <==> sites[s] >= 0 && LabelHit(sites, sources, sites[s])) &&
      r.sites[s] == (if r.sites[s] >= 0 then sites[s] else -1)
    ensures forall t :: 0 <= t < |bonds| ==>
      (r.bonds[t] >= 0 <==> bonds[t] >= 0 && LabelHit(sites, sources, bonds[t])) &&
      r.bonds[t] == (if r.bonds[t] >= 0 then bonds[t] else -1)
  {
    Labels(
      seq(|sites|, s requires 0 <= s < |sites| =>
        if sites[s] >= 0 && LabelHit(sites, sources, sites[s]) then sites[s] else -1),
      seq(|bonds|, t requires 0 <= t < |bonds| =>
        if bonds[t] >= 0 && LabelHit(sites, sources, bonds[t]) then bonds[t] else -1))
  }

  /** Labels of the clusters of `open` that hold a source pore. */
  function SourceClusters(conns: Conns, open: seq<bool>, np: nat, sources: seq<bool>): (r: Labels)
    requires |open| == |conns| && ValidConns(conns, np) && |sources| == np
    ensures |r.sites| == np && |r.bonds| == |conns|
  {
    var lab := BondPercolation(conns, open, np);
    FindConnectedClusters(lab.bonds, lab.sites, sources)
  }

  /** Access limitation: after filtering, a pore is labelled iff it ends an open throat and is
      linked to a source pore, and a throat iff it is open and its ends are linked to a source. */
  lemma SourceClustersReach(conns: Conns, open: seq<bool>, np: nat, sources: seq<bool>)
    requires |open| == |conns| && ValidConns(conns, np) && |sources| == np
    ensures var r := SourceClusters(conns, open, np, sources);
      && (forall s :: 0 <= s < np ==>
            (r.sites[s] >= 0 <==> Touches(conns, open, s) && FedBy(conns, open, sources, s)))
      && (forall t :: 0 <= t < |conns| ==>
            (r.bonds[t] >= 0 <==> open[t] && FedBy(conns, open, sources, conns[t].0)))
  {
    var lab := BondPercolation(conns, open, np);
    var r := SourceClusters(conns, open, np, sources);
    BondPercolationClusters(conns, open, np);
    forall s | 0 <= s < np
      ensures r.sites[s] >= 0 <==> Touches(conns, open, s) && FedBy(conns, open, sources, s)
    {
      if r.sites[s] >= 0 {
        var i :| 0 <= i < np && sources[i] && lab.sites[i] == lab.sites[s];
        assert Linked(conns, open, i, s);
      }
      if Touches(conns, open, s) && FedBy(conns, open, sources, s) {
        var i :| 0 <= i < |sources| && sources[i] && Linked(conns, open, i, s);
        if i != s {
          LinkedTouches(conns, open, i, s);
        }
        assert lab.sites[i] == lab.sites[s];
        assert LabelHit(lab.sites, sources, lab.sites[s]);
      }
    }
    forall t | 0 <= t < |conns|
      ensures r.bonds[t] >= 0 <==> open[t] && FedBy(conns, open, sources, conns[t].0)
    {
      var u := conns[t].0;
      if open[t] {
        assert Touches(conns, open, u);
        assert lab.bonds[t] == lab.sites[u];
        assert r.sites[u] >= 0 <==> Touches(conns, open, u) && FedBy(conns, open, sources, u);
      }
    }
  }

  // ---------------------------------------------------------------------------
  // find_trapped_clusters

  function Complement(mask: seq<bool>): (r: seq<bool>)
    ensures |r| == |mask| && forall t :: 0 <= t < |mask| ==> r[t] != mask[t]
  {
    seq(|mask|, t requires 0 <= t < |mask| => !mask[t])
  }

  /** `find_trapped_clusters(conns, occupied_bonds, outlets)`: clusters of the non-occupied
      throats, with every cluster that holds an outlet cleared to -1. */
  function FindTrappedClusters(conns: Conns, occupied: seq<bool>, outlets: seq<bool>, np: nat): (r: Labels)
    requires |occupied| == |conns| && ValidConns(conns, np) && |outlets| == np
    ensures |r.sites| == np && |r.bonds| == |conns|
  {
    var free := Complement(occupied);
    var lab := BondPercolation(conns, free, np);
    var hit := FindConnectedClusters(lab.bonds, lab.sites, outlets);
    Labels(
      seq(np, s requires 0 <= s < np => if hit.sites[s] >= 0 then -1 else lab.sites[s]),
      seq(|conns|, t requires 0 <= t < |conns| => if hit.bonds[t] >= 0 then -1 else lab.bonds[t]))
  }

  /** Trapping: a pore is labelled trapped iff it ends a non-occupied throat and no outlet is
      linked to it through non-occupied throats; a throat iff it is not occupied and no outlet
      is linked to its ends that way. */
  lemma TrappedClustersIsolated(conns: Conns, occupied: seq<bool>, outlets: seq<bool>, np: nat)
    requires |occupied| == |conns| && ValidConns(conns, np) && |outlets| == np
    ensures var free := Complement(occupied);
      var r := FindTrappedClusters(conns, occupied, outlets, np);
      && (forall s :: 0 <= s < np ==>
            (r.sites[s] >= 0 <==> Touches(conns, free, s) && !FedBy(conns, free, outlets, s)))
      && (forall t :: 0 <= t < |conns| ==>
            (r.bonds[t] >= 0 <==> !occupied[t] && !FedBy(conns, free, outlets, conns[t].0)))
  {
    var free := Complement(occupied);
    var lab := BondPercolation(conns, free, np);
    BondPercolationClusters(conns, free, np);
    SourceClustersReach(conns, free, np, outlets);
    var hit := SourceClusters(conns, free, np, outlets);
    var r := FindTrappedClusters(conns, occupied, outlets, np);
    forall s | 0 <= s < np
      ensures r.sites[s] >= 0 <==> Touches(conns, free, s) && !FedBy(conns, free, outlets, s)
    {
      assert r.sites[s] == if hit.sites[s] >= 0 then -1 else lab.sites[s];
    }
    forall t | 0 <= t < |conns|
      ensures r.bonds[t] >= 0 <==> !occupied[t] && !FedBy(conns, free, outlets, conns[t].0)
    {
      assert r.bonds[t] == if hit.bonds[t] >= 0 then -1 else lab.bonds[t];
    }
  }
}
