/** The drainage algorithm: access-limited invasion of a pore network at an
    applied pressure, with trapping of the defending phase.

    The algorithm owns eight boolean arrays: per pore `inlets`, `outlets`,
    `invaded`, `residual` and `trapped`; per throat `invaded`, `residual` and
    `trapped`. `Reset` replaces them with all-False arrays, the `Set*` methods
    only switch entries on, and `Run` performs one invasion step. `State` is
    the value of those eight arrays; `RunStep` is the invasion step on values,
    which `Run` is proved to perform in place. */
module Drainage {
  import opened Wrappers
  import opened NdIndex
  import opened Percolation

  datatype State = State(
    poreInlets: seq<bool>,
    poreOutlets: seq<bool>,
    poreInvaded: seq<bool>,
    poreResidual: seq<bool>,
    poreTrapped: seq<bool>,
    throatInvaded: seq<bool>,
    throatResidual: seq<bool>,
    throatTrapped: seq<bool>)

  /** Pore arrays have np entries, throat arrays nt. */
  ghost predicate Shaped(s: State, np: nat, nt: nat)
  {
    && |s.poreInlets| == np && |s.poreOutlets| == np && |s.poreInvaded| == np
    && |s.poreResidual| == np && |s.poreTrapped| == np
    && |s.throatInvaded| == nt && |s.throatResidual| == nt && |s.throatTrapped| == nt
  }

  function Falses(n: nat): (r: seq<bool>)
    ensures |r| == n && forall i :: 0 <= i < n ==> !r[i]
  {
    seq(n, _ => false)
  }

  /** The state right after `reset`. */
  function Cleared(np: nat, nt: nat): (r: State)
    ensures Shaped(r, np, nt)
  {
    State(Falses(np), Falses(np), Falses(np), Falses(np), Falses(np), Falses(nt), Falses(nt), Falses(nt))
  }

  /** Elementwise `a | b`. */
  function Or(a: seq<bool>, b: seq<bool>): (r: seq<bool>)
    requires |a| == |b|
    ensures |r| == |a| && forall i :: 0 <= i < |a| ==> (r[i] <==> a[i] || b[i])
  {
    seq(|a|, i requires 0 <= i < |a| => a[i] || b[i])
  }

  /** `labels >= 0`. */
  function Reached(labels: seq<int>): (r: seq<bool>)
    ensures |r| == |labels| && forall i :: 0 <= i < |labels| ==> (r[i] <==> labels[i] >= 0)
  {
    seq(|labels|, i requires 0 <= i < |labels| => labels[i] >= 0)
  }

  /** `a` with every listed position switched on. */
  function Marked(a: seq<bool>, pos: seq<nat>): (r: seq<bool>)
    ensures |r| == |a| && forall q :: 0 <= q < |a| ==> (r[q] <==> a[q] || q in pos)
  {
    seq(|a|, q requires 0 <= q < |a| => a[q] || q in pos)
  }

  /** `a[loc] = True` on a value: None where numpy raises IndexError. */
  function MarkAt(a: seq<bool>, loc: Locations): (r: Option<seq<bool>>)
    ensures r.Some? <==> Positions(loc, |a|).Some?
    ensures r.Some? ==> |r.value| == |a| && forall q :: 0 <= q < |a| && a[q] ==> r.value[q]
  {
    match Positions(loc, |a|)
    case Some(pos) => Some(Marked(a, pos))
    case None => None
  }

  /** The throats open at this pressure: entry threshold at most the pressure, or residual. */
  function OpenThroats(thresholds: seq<real>, residual: seq<bool>, pressure: real): (r: seq<bool>)
    requires |residual| == |thresholds|
    ensures |r| == |thresholds|
    ensures forall t :: 0 <= t < |thresholds| ==> (r[t] <==> thresholds[t] <= pressure || residual[t])
  {
    seq(|thresholds|, t requires 0 <= t < |thresholds| => thresholds[t] <= pressure || residual[t])
  }

  /** `np.any(mask)`. */
  predicate AnyTrue(mask: seq<bool>)
  {
    exists i :: 0 <= i < |mask| && mask[i]
  }

  /** One call of `run(pressure)` on the values of the eight arrays. */
  function RunStep(s: State, conns: Conns, np: nat, thresholds: seq<real>, pressure: real): (r: State)
    requires ValidConns(conns, np) && Shaped(s, np, |conns|) && |thresholds| == |conns|
    ensures Shaped(r, np, |conns|)
    ensures r.poreInlets == s.poreInlets && r.poreOutlets == s.poreOutlets
    ensures r.poreResidual == s.poreResidual && r.throatResidual == s.throatResidual
    ensures forall q :: 0 <= q < np && s.poreInvaded[q] ==> r.poreInvaded[q]
    ensures forall t :: 0 <= t < |conns| && s.throatInvaded[t] ==> r.throatInvaded[t]
    ensures forall q :: 0 <= q < np && s.poreTrapped[q] ==> r.poreTrapped[q]
    ensures forall t :: 0 <= t < |conns| && s.throatTrapped[t] ==> r.throatTrapped[t]
    ensures !AnyTrue(s.poreOutlets) ==> r.poreTrapped == s.poreTrapped && r.throatTrapped == s.throatTrapped
  {
    var open := OpenThroats(thresholds, s.throatResidual, pressure);
    var inv := SourceClusters(conns, open, np, s.poreInlets);
    var poreInvaded := Or(s.poreInvaded, Reached(inv.sites));
    var throatInvaded := Or(s.throatInvaded, Reached(inv.bonds));
    if AnyTrue(s.poreOutlets) then
      var tr := FindTrappedClusters(conns, throatInvaded, s.poreOutlets, np);
      s.(poreInvaded := poreInvaded, throatInvaded := throatInvaded,
         poreTrapped := Or(s.poreTrapped, Reached(tr.sites)),
         throatTrapped := Or(s.throatTrapped, Reached(tr.bonds)))
    else
      s.(poreInvaded := poreInvaded, throatInvaded := throatInvaded)
  }

  // ---------------------------------------------------------------------------
  // Properties of one invasion step

  /** Access-limited invasion: after `run`, a pore is invaded iff it was before, or it ends an
      open throat and an inlet is linked to it through open throats; a throat iff it was before,
      or it is open and an inlet is linked to its ends. `pore.residual` plays no part. */
  lemma RunInvades(s: State, conns: Conns, np: nat, thresholds: seq<real>, pressure: real)
    requires ValidConns(conns, np) && Shaped(s, np, |conns|) && |thresholds| == |conns|
    ensures var open := OpenThroats(thresholds, s.throatResidual, pressure);
      var r := RunStep(s, conns, np, thresholds, pressure);
      && (forall q :: 0 <= q < np ==>
            (r.poreInvaded[q] <==>
               s.poreInvaded[q] || (Touches(conns, open, q) && FedBy(conns, open, s.poreInlets, q))))
      && (forall t :: 0 <= t < |conns| ==>
            (r.throatInvaded[t] <==>
               s.throatInvaded[t] || (open[t] && FedBy(conns, open, s.poreInlets, conns[t].0))))
  {
    var open := OpenThroats(thresholds, s.throatResidual, pressure);
    SourceClustersReach(conns, open, np, s.poreInlets);
  }

  /** Trapping: when some pore is an outlet, `run` adds to `trapped` exactly the pores and
      throats that the updated `throat.invaded` cuts off from every outlet. */
  lemma RunTraps(s: State, conns: Conns, np: nat, thresholds: seq<real>, pressure: real)
    requires ValidConns(conns, np) && Shaped(s, np, |conns|) && |thresholds| == |conns|
    requires AnyTrue(s.poreOutlets)
    ensures var r := RunStep(s, conns, np, thresholds, pressure);
      var free := Complement(r.throatInvaded);
      && (forall q :: 0 <= q < np ==>
            (r.poreTrapped[q] <==>
               s.poreTrapped[q] || (Touches(conns, free, q) && !FedBy(conns, free, s.poreOutlets, q))))
      && (forall t :: 0 <= t < |conns| ==>
            (r.throatTrapped[t] <==>
               s.throatTrapped[t] || (!r.throatInvaded[t] && !FedBy(conns, free, s.poreOutlets, conns[t].0))))
  {
    var r := RunStep(s, conns, np, thresholds, pressure);
    TrappedClustersIsolated(conns, r.throatInvaded, s.poreOutlets, np);
  }

  /** Calling `run(p)` twice in a row gives the state of calling it once. */
  lemma RunIdempotent(s: State, conns: Conns, np: nat, thresholds: seq<real>, pressure: real)
    requires ValidConns(conns, np) && Shaped(s, np, |conns|) && |thresholds| == |conns|
    ensures var r := RunStep(s, conns, np, thresholds, pressure);
      RunStep(r, conns, np, thresholds, pressure) == r
  {
    var r := RunStep(s, conns, np, thresholds, pressure);
    var r2 := RunStep(r, conns, np, thresholds, pressure);
    var open := OpenThroats(thresholds, s.throatResidual, pressure);
    var inv := SourceClusters(conns, open, np, s.poreInlets);
    assert OpenThroats(thresholds, r.throatResidual, pressure) == open;
    assert Or(r.poreInvaded, Reached(inv.sites)) == r.poreInvaded;
    assert Or(r.throatInvaded, Reached(inv.bonds)) == r.throatInvaded;
    if AnyTrue(s.poreOutlets) {
      var tr := FindTrappedClusters(conns, r.throatInvaded, s.poreOutlets, np);
      assert Or(r.poreTrapped, Reached(tr.sites)) == r.poreTrapped;
      assert Or(r.throatTrapped, Reached(tr.bonds)) == r.throatTrapped;
    }
  }

  /** A higher pressure invades at least what a lower one does from the same state. */
  lemma RunPressureMonotone(s: State, conns: Conns, np: nat, thresholds: seq<real>, low: real, high: real)
    requires ValidConns(conns, np) && Shaped(s, np, |conns|) && |thresholds| == |conns|
    requires low <= high
    ensures var a := RunStep(s, conns, np, thresholds, low);
      var b := RunStep(s, conns, np, thresholds, high);
      && (forall q :: 0 <= q < np && a.poreInvaded[q] ==> b.poreInvaded[q])
      && (forall t :: 0 <= t < |conns| && a.throatInvaded[t] ==> b.throatInvaded[t])
  {
    RunPoresMonotone(s, conns, np, thresholds, low, high);
    RunThroatsMonotone(s, conns, np, thresholds, low, high);
  }

  lemma RunPoresMonotone(s: State, conns: Conns, np: nat, thresholds: seq<real>, low: real, high: real)
    requires ValidConns(conns, np) && Shaped(s, np, |conns|) && |thresholds| == |conns|
    requires low <= high
    ensures var a := RunStep(s, conns, np, thresholds, low);
      var b := RunStep(s, conns, np, thresholds, high);
      forall q :: 0 <= q < np && a.poreInvaded[q] ==> b.poreInvaded[q]
  {
    var lo := OpenThroats(thresholds, s.throatResidual, low);
    var hi := OpenThroats(thresholds, s.throatResidual, high);
    RunInvades(s, conns, np, thresholds, low);
    RunInvades(s, conns, np, thresholds, high);
    forall q | 0 <= q < np && FedBy(conns, lo, s.poreInlets, q)
      ensures FedBy(conns, hi, s.poreInlets, q)
    {
      FedMonotone(conns, lo, hi, s.poreInlets, q);
    }
    forall q | 0 <= q < np && Touches(conns, lo, q)
      ensures Touches(conns, hi, q)
    {
      var t :| 0 <= t < |conns| && lo[t] && (conns[t].0 == q || conns[t].1 == q);
      assert hi[t];
    }
  }

  lemma RunThroatsMonotone(s: State, conns: Conns, np: nat, thresholds: seq<real>, low: real, high: real)
    requires ValidConns(conns, np) && Shaped(s, np, |conns|) && |thresholds| == |conns|
    requires low <= high
    ensures var a := RunStep(s, conns, np, thresholds, low);
      var b := RunStep(s, conns, np, thresholds, high);
      forall t :: 0 <= t < |conns| && a.throatInvaded[t] ==> b.throatInvaded[t]
  {
    var lo := OpenThroats(thresholds, s.throatResidual, low);
    var hi := OpenThroats(thresholds, s.throatResidual, high);
    RunInvades(s, conns, np, thresholds, low);
    RunInvades(s, conns, np, thresholds, high);
    forall q | 0 <= q < np && FedBy(conns, lo, s.poreInlets, q)
      ensures FedBy(conns, hi, s.poreInlets, q)
    {
      FedMonotone(conns, lo, hi, s.poreInlets, q);
    }
  }


  // ---------------------------------------------------------------------------
  // Small networks

  /** Pores 0-1-2 in a line with inlet 2 and only throat (0,1) open at the applied pressure:
      nothing is invaded, because the open throat is cut off from the inlet. */
  lemma AccessLimitedExample(s: State, conns: Conns, thresholds: seq<real>)
    requires conns == [(0, 1), (1, 2)] && thresholds == [1.0, 5.0]
    requires s == Cleared(3, 2).(poreInlets := [false, false, true])
    ensures var r := RunStep(s, conns, 3, thresholds, 2.0);
      r.throatInvaded == [false, false] && r.poreInvaded == [false, false, false]
  {
    var open := OpenThroats(thresholds, s.throatResidual, 2.0);
    assert open == [true, false];
    RunInvades(s, conns, 3, thresholds, 2.0);
    CutOff(conns, open, s.poreInlets);
    ReadNoneInvaded(conns, open, s.poreInlets, RunStep(s, conns, 3, thresholds, 2.0));
  }

  /** Invaded arrays that follow the access-limited characterisation on the network of
      AccessLimitedExample, starting with nothing invaded. */
  lemma ReadNoneInvaded(conns: Conns, open: seq<bool>, inlets: seq<bool>, r: State)
    requires conns == [(0, 1), (1, 2)] && open == [true, false]
    requires |r.poreInvaded| == 3 && |r.throatInvaded| == 2
    requires forall q | 0 <= q < 3 :: !(Touches(conns, open, q) && FedBy(conns, open, inlets, q))
    requires forall q :: 0 <= q < 3 ==>
      (r.poreInvaded[q] ==> Touches(conns, open, q) && FedBy(conns, open, inlets, q))
    requires forall t :: 0 <= t < 2 ==>
      (r.throatInvaded[t] ==> open[t] && FedBy(conns, open, inlets, conns[t].0))
    ensures r.throatInvaded == [false, false] && r.poreInvaded == [false, false, false]
  {
    assert conns[0].0 == 0;
    assert !r.poreInvaded[0] && !r.poreInvaded[1] && !r.poreInvaded[2];
  }


  /** In the network of AccessLimitedExample no pore both ends an open throat and is fed by the inlet. */
  lemma CutOff(conns: Conns, open: seq<bool>, inlets: seq<bool>)
    requires conns == [(0, 1), (1, 2)] && open == [true, false] && inlets == [false, false, true]
    ensures forall q | 0 <= q < 3 :: !(Touches(conns, open, q) && FedBy(conns, open, inlets, q))
  {
    assert !Touches(conns, open, 2);
    forall q | 0 <= q < 3
      ensures !(Touches(conns, open, q) && FedBy(conns, open, inlets, q))
    {
      if Touches(conns, open, q) && FedBy(conns, open, inlets, q) {
        var i :| 0 <= i < 3 && inlets[i] && Linked(conns, open, i, q);
        assert i == 2;
        if q != 2 {
          LinkedTouches(conns, open, 2, q);
        }
      }
    }
  }

  /** Pores 0-1-2-3 in a line, every throat open, inlet 0: everything is invaded. */
  lemma ConnectedExample(s: State, conns: Conns, thresholds: seq<real>)
    requires conns == [(0, 1), (1, 2), (2, 3)] && thresholds == [1.0, 1.0, 1.0]
    requires s == Cleared(4, 3).(poreInlets := [true, false, false, false])
    ensures var r := RunStep(s, conns, 4, thresholds, 1.0);
      r.throatInvaded == [true, true, true] && r.poreInvaded == [true, true, true, true]
  {
    var open := OpenThroats(thresholds, s.throatResidual, 1.0);
    assert open == [true, true, true];
    RunInvades(s, conns, 4, thresholds, 1.0);
    AllFed(conns, open, s.poreInlets);
    ReadAllInvaded(conns, open, s.poreInlets, RunStep(s, conns, 4, thresholds, 1.0));
  }

  /** Invaded arrays that follow the access-limited characterisation on the network of
      ConnectedExample. */
  lemma ReadAllInvaded(conns: Conns, open: seq<bool>, inlets: seq<bool>, r: State)
    requires conns == [(0, 1), (1, 2), (2, 3)] && open == [true, true, true]
    requires |r.poreInvaded| == 4 && |r.throatInvaded| == 3
    requires forall q | 0 <= q < 4 :: Touches(conns, open, q) && FedBy(conns, open, inlets, q)
    requires forall q :: 0 <= q < 4 ==>
      (Touches(conns, open, q) && FedBy(conns, open, inlets, q) ==> r.poreInvaded[q])
    requires forall t :: 0 <= t < 3 ==>
      (open[t] && FedBy(conns, open, inlets, conns[t].0) ==> r.throatInvaded[t])
    ensures r.throatInvaded == [true, true, true] && r.poreInvaded == [true, true, true, true]
  {
    assert conns[0].0 == 0 && conns[1].0 == 1 && conns[2].0 == 2;
    assert r.poreInvaded[0] && r.poreInvaded[1] && r.poreInvaded[2] && r.poreInvaded[3];
  }


  /** In the network of ConnectedExample every pore ends an open throat and is fed by pore 0. */
  lemma AllFed(conns: Conns, open: seq<bool>, inlets: seq<bool>)
    requires conns == [(0, 1), (1, 2), (2, 3)] && open == [true, true, true]
    requires inlets == [true, false, false, false]
    ensures forall q | 0 <= q < 4 :: Touches(conns, open, q) && FedBy(conns, open, inlets, q)
  {
    assert Joins(conns, open, 0, 1, 0) && Joins(conns, open, 1, 2, 1) && Joins(conns, open, 2, 3, 2);
    LinkedRefl(conns, open, 0);
    LinkedStep(conns, open, 1, 0, 0);
    LinkedStep(conns, open, 2, 1, 0);
    LinkedStep(conns, open, 3, 2, 0);
    LinkedSym(conns, open, 1, 0);
    LinkedSym(conns, open, 2, 0);
    LinkedSym(conns, open, 3, 0);
    forall q | 0 <= q < 4
      ensures Touches(conns, open, q) && FedBy(conns, open, inlets, q)
    {
      if q < 3 {
        assert open[q] && conns[q].0 == q;
      } else {
        assert open[2] && conns[2].1 == q;
      }
      assert inlets[0] && Linked(conns, open, 0, q) by {
        if q == 0 {} else if q == 1 {} else if q == 2 {} else {}
      }
    }
  }

  /** Pores 0-1-2-3 in a line with only the middle throat invaded and outlet 3: pores 0 and 1
      and throat (0,1) are cut off from the outlet and are trapped; the rest is not. */
  lemma TrappedExample(conns: Conns, occupied: seq<bool>, outlets: seq<bool>)
    requires conns == [(0, 1), (1, 2), (2, 3)] && occupied == [false, true, false]
    requires outlets == [false, false, false, true]
    ensures var r := FindTrappedClusters(conns, occupied, outlets, 4);
      && (forall q :: 0 <= q < 4 ==> (r.sites[q] >= 0 <==> q < 2))
      && (forall t :: 0 <= t < 3 ==> (r.bonds[t] >= 0 <==> t == 0))
  {
    var free := Complement(occupied);
    assert free == [true, false, true];
    TrappedClustersIsolated(conns, occupied, outlets, 4);
    Isolated(conns, free, outlets);
    ReadLabels(conns, free, outlets, FindTrappedClusters(conns, occupied, outlets, 4));
  }

  /** Labels of the network of TrappedExample that follow the trapping characterisation. */
  lemma ReadLabels(conns: Conns, free: seq<bool>, outlets: seq<bool>, r: Labels)
    requires conns == [(0, 1), (1, 2), (2, 3)] && free == [true, false, true]
    requires outlets == [false, false, false, true]
    requires |r.sites| == 4 && |r.bonds| == 3
    requires !FedBy(conns, free, outlets, 0) && !FedBy(conns, free, outlets, 1)
    requires FedBy(conns, free, outlets, 2) && FedBy(conns, free, outlets, 3)
    requires Touches(conns, free, 0) && Touches(conns, free, 1)
    requires forall s :: 0 <= s < 4 ==>
      (r.sites[s] >= 0 <==> Touches(conns, free, s) && !FedBy(conns, free, outlets, s))
    requires forall t :: 0 <= t < 3 ==>
      (r.bonds[t] >= 0 <==> free[t] && !FedBy(conns, free, outlets, conns[t].0))
    ensures forall q :: 0 <= q < 4 ==> (r.sites[q] >= 0 <==> q < 2)
    ensures forall t :: 0 <= t < 3 ==> (r.bonds[t] >= 0 <==> t == 0)
  {
    assert conns[0].0 == 0 && conns[1].0 == 1 && conns[2].0 == 2;
  }

  /** In the network of TrappedExample pores 0 and 1 are cut off from the outlet, pores 2 and 3
      are not, and pores 0, 1 and 2 end a free throat. */
  lemma Isolated(conns: Conns, free: seq<bool>, outlets: seq<bool>)
    requires conns == [(0, 1), (1, 2), (2, 3)] && free == [true, false, true]
    requires outlets == [false, false, false, true]
    ensures !FedBy(conns, free, outlets, 0) && !FedBy(conns, free, outlets, 1)
    ensures FedBy(conns, free, outlets, 2) && FedBy(conns, free, outlets, 3)
    ensures Touches(conns, free, 0) && Touches(conns, free, 1) && Touches(conns, free, 2)
    ensures !FedBy(conns, free, outlets, conns[0].0) && FedBy(conns, free, outlets, conns[2].0)
  {
    // pores 2 and 3 reach the outlet through throat (2,3)
    assert Joins(conns, free, 2, 3, 2);
    LinkedRefl(conns, free, 2);
    LinkedStep(conns, free, 3, 2, 2);
    LinkedRefl(conns, free, 3);
    // pores 0 and 1 only reach each other
    forall q | q < 2
      ensures !FedBy(conns, free, outlets, q)
    {
      if FedBy(conns, free, outlets, q) {
        var i :| 0 <= i < 4 && outlets[i] && Linked(conns, free, i, q);
        assert i == 3;
        LinkedSym(conns, free, 3, q);
        OnlyNeighbours(conns, free, q);
      }
    }
    assert free[0] && conns[0].0 == 0 && conns[0].1 == 1;
    assert free[2] && conns[2].0 == 2;
  }

  /** In the network of TrappedExample pores 0 and 1 reach nothing beyond each other. */
  lemma OnlyNeighbours(conns: Conns, free: seq<bool>, a: nat)
    requires conns == [(0, 1), (1, 2), (2, 3)] && free == [true, false, true] && a < 2
    ensures !Linked(conns, free, a, 3)
  {
    if Linked(conns, free, a, 3) {
      var p :| IsPath(conns, free, p) && p[0] == a && p[|p| - 1] == 3;
      var k := 0;
      while k < |p| - 1
        invariant 0 <= k <= |p| - 1
        invariant p[k] < 2
      {
        assert Adjacent(conns, free, p[k], p[k + 1]);
        var t :| Joins(conns, free, t, p[k], p[k + 1]);
        k := k + 1;
      }
    }
  }

  /** Pores 0-1-2 in a line with throat (0,1) invaded and outlet 2: pore 0 ends no free throat
      and throat (0,1) is occupied, so neither gets a label, and pores 1 and 2 reach the outlet.
      Nothing is trapped. */
  lemma InvadedPocketExample(conns: Conns, occupied: seq<bool>, outlets: seq<bool>)
    requires conns == [(0, 1), (1, 2)] && occupied == [true, false]
    requires outlets == [false, false, true]
    ensures var r := FindTrappedClusters(conns, occupied, outlets, 3);
      && (forall q :: 0 <= q < 3 ==> r.sites[q] < 0)
      && (forall t :: 0 <= t < 2 ==> r.bonds[t] < 0)
  {
    var free := Complement(occupied);
    assert free == [false, true];
    TrappedClustersIsolated(conns, occupied, outlets, 3);
    PocketDrains(conns, free, outlets);
    ReadPocket(conns, occupied, free, outlets, FindTrappedClusters(conns, occupied, outlets, 3));
  }

  /** In the network of InvadedPocketExample pore 0 ends no free throat and pores 1 and 2
      reach the outlet. */
  lemma PocketDrains(conns: Conns, free: seq<bool>, outlets: seq<bool>)
    requires conns == [(0, 1), (1, 2)] && free == [false, true]
    requires outlets == [false, false, true]
    ensures !Touches(conns, free, 0)
    ensures FedBy(conns, free, outlets, 1) && FedBy(conns, free, outlets, 2)
  {
    assert Joins(conns, free, 1, 2, 1);
    LinkedRefl(conns, free, 1);
    LinkedStep(conns, free, 2, 1, 1);
    LinkedRefl(conns, free, 2);
  }

  /** Labels of the network of InvadedPocketExample that follow the trapping characterisation. */
  lemma ReadPocket(conns: Conns, occupied: seq<bool>, free: seq<bool>, outlets: seq<bool>, r: Labels)
    requires conns == [(0, 1), (1, 2)] && occupied == [true, false] && free == [false, true]
    requires outlets == [false, false, true]
    requires |r.sites| == 3 && |r.bonds| == 2
    requires !Touches(conns, free, 0)
    requires FedBy(conns, free, outlets, 1) && FedBy(conns, free, outlets, 2)
    requires forall s :: 0 <= s < 3 ==>
      (r.sites[s] >= 0 <==> Touches(conns, free, s) && !FedBy(conns, free, outlets, s))
    requires forall t :: 0 <= t < 2 ==>
      (r.bonds[t] >= 0 <==> !occupied[t] && !FedBy(conns, free, outlets, conns[t].0))
    ensures forall q :: 0 <= q < 3 ==> r.sites[q] < 0
    ensures forall t :: 0 <= t < 2 ==> r.bonds[t] < 0
  {
    assert conns[1].0 == 1;
  }

  // ---------------------------------------------------------------------------
  // The algorithm object

  /** `np.zeros(n, dtype=bool)`. */
  method NewFalses(n: nat) returns (a: array<bool>)
    ensures fresh(a) && a[..] == Falses(n)
  {
    a := new bool[n](_ => false);
  }

  /** `a[mask] = True` in place. */
  method OrInto(a: array<bool>, mask: seq<bool>)
    requires |mask| == a.Length
    modifies a
    ensures a[..] == Or(old(a[..]), mask)
  {
    for i := 0 to a.Length
      invariant forall k :: 0 <= k < i ==> a[k] == (old(a[k]) || mask[k])
      invariant forall k :: i <= k < a.Length ==> a[k] == old(a[k])
    {
      if mask[i] {
        a[i] := true;
      }
    }
    assert forall k :: 0 <= k < a.Length ==> a[..][k] == Or(old(a[..]), mask)[k];
  }

  /** `a[pos] = True` in place, for positions already checked by numpy. */
  method WriteTrue(a: array<bool>, pos: seq<nat>)
    requires forall k :: 0 <= k < |pos| ==> pos[k] < a.Length
    modifies a
    ensures a[..] == Marked(old(a[..]), pos)
  {
    for i := 0 to |pos|
      invariant forall q :: 0 <= q < a.Length ==> (a[q] <==> old(a[q]) || q in pos[..i])
    {
      a[pos[i]] := true;
      assert pos[..i + 1] == pos[..i] + [pos[i]];
    }
    assert pos[..|pos|] == pos;
    assert forall q :: 0 <= q < a.Length ==> a[..][q] == Marked(old(a[..]), pos)[q];
  }

  /** No two of eight arrays are the same object. */
  predicate Distinct8(a0: array<bool>, a1: array<bool>, a2: array<bool>, a3: array<bool>,
                      a4: array<bool>, a5: array<bool>, a6: array<bool>, a7: array<bool>)
  {
    && a0 != a1 && a0 != a2 && a0 != a3 && a0 != a4 && a0 != a5 && a0 != a6 && a0 != a7
    && a1 != a2 && a1 != a3 && a1 != a4 && a1 != a5 && a1 != a6 && a1 != a7
    && a2 != a3 && a2 != a4 && a2 != a5 && a2 != a6 && a2 != a7
    && a3 != a4 && a3 != a5 && a3 != a6 && a3 != a7
    && a4 != a5 && a4 != a6 && a4 != a7
    && a5 != a6 && a5 != a7
    && a6 != a7
  }

  /** Eight fresh all-False arrays, five of length np and three of length nt. */
  method NewState(np: nat, nt: nat)
    returns (a0: array<bool>, a1: array<bool>, a2: array<bool>, a3: array<bool>,
             a4: array<bool>, a5: array<bool>, a6: array<bool>, a7: array<bool>)
    ensures fresh(a0) && fresh(a1) && fresh(a2) && fresh(a3)
    ensures fresh(a4) && fresh(a5) && fresh(a6) && fresh(a7)
    ensures a0[..] == Falses(np) && a1[..] == Falses(np) && a2[..] == Falses(np)
    ensures a3[..] == Falses(np) && a4[..] == Falses(np)
    ensures a5[..] == Falses(nt) && a6[..] == Falses(nt) && a7[..] == Falses(nt)
    ensures Distinct8(a0, a1, a2, a3, a4, a5, a6, a7)
    ensures a0.Length == np && a1.Length == np && a2.Length == np && a3.Length == np && a4.Length == np
    ensures a5.Length == nt && a6.Length == nt && a7.Length == nt
  {
    a0 := NewFalses(np);
    a1 := NewFalses(np);
    a2 := NewFalses(np);
    a3 := NewFalses(np);
    a4 := NewFalses(np);
    a5 := NewFalses(nt);
    a6 := NewFalses(nt);
    a7 := NewFalses(nt);
  }

  class DrainageAlgorithm {
    /** The network's `throat.conns` and pore count. */
    const conns: Conns
    const np: nat

    var poreInlets: array<bool>
    var poreOutlets: array<bool>
    var poreInvaded: array<bool>
    var poreResidual: array<bool>
    var poreTrapped: array<bool>
    var throatInvaded: array<bool>
    var throatResidual: array<bool>
    var throatTrapped: array<bool>

    /** The arrays have the network's sizes and no two of them are the same object. */
    ghost predicate Valid()
      reads this
    {
      && ValidConns(conns, np)
      && poreInlets.Length == np && poreOutlets.Length == np && poreInvaded.Length == np
      && poreResidual.Length == np && poreTrapped.Length == np
      && throatInvaded.Length == |conns| && throatResidual.Length == |conns|
      && throatTrapped.Length == |conns|
      && Distinct8(poreInlets, poreOutlets, poreInvaded, poreResidual, poreTrapped,
                   throatInvaded, throatResidual, throatTrapped)
    }

    ghost function Snapshot(): State
      reads this, poreInlets, poreOutlets, poreInvaded, poreResidual, poreTrapped,
        throatInvaded, throatResidual, throatTrapped
    {
      State(poreInlets[..], poreOutlets[..], poreInvaded[..], poreResidual[..], poreTrapped[..],
            throatInvaded[..], throatResidual[..], throatTrapped[..])
    }

    constructor (conns: Conns, np: nat)
      requires ValidConns(conns, np)
      ensures Valid() && this.conns == conns && this.np == np
      ensures Snapshot() == Cleared(np, |conns|)
    {
      this.conns := conns;
      this.np := np;
      var none := new bool[0];
      poreInlets, poreOutlets, poreInvaded, poreResidual, poreTrapped := none, none, none, none, none;
      throatInvaded, throatResidual, throatTrapped := none, none, none;
      new;
      Reset();
    }

    /** `reset`: every state array becomes a fresh all-False array. */
    method Reset()
      requires ValidConns(conns, np)
      modifies this
      ensures Valid() && Snapshot() == Cleared(np, |conns|)
      ensures fresh(poreInlets) && fresh(poreOutlets) && fresh(poreInvaded) && fresh(poreResidual)
      ensures fresh(poreTrapped) && fresh(throatInvaded) && fresh(throatResidual) && fresh(throatTrapped)
    {
      var a0, a1, a2, a3, a4, a5, a6, a7 := NewState(np, |conns|);
      Install(a0, a1, a2, a3, a4, a5, a6, a7);
    }

    /** Points the eight state fields at the given arrays, in the order of `State`'s fields. */
    method Install(a0: array<bool>, a1: array<bool>, a2: array<bool>, a3: array<bool>,
                   a4: array<bool>, a5: array<bool>, a6: array<bool>, a7: array<bool>)
      modifies this
      ensures poreInlets == a0 && poreOutlets == a1 && poreInvaded == a2 && poreResidual == a3
      ensures poreTrapped == a4 && throatInvaded == a5 && throatResidual == a6 && throatTrapped == a7
    {
      poreInlets, poreOutlets, poreInvaded, poreResidual, poreTrapped := a0, a1, a2, a3, a4;
      throatInvaded, throatResidual, throatTrapped := a5, a6, a7;
    }

    /** `set_inlets(pores)`: the given pores become inlets; nothing else changes. On an
        IndexError (`ok` false) nothing changes at all. The `mode` argument is ignored. */
    method SetInlets(pores: Locations) returns (ok: bool)
      requires Valid()
      modifies poreInlets
      ensures Valid()
      ensures var m := MarkAt(old(poreInlets[..]), pores);
        && ok == m.Some?
        && Snapshot() == if ok then old(Snapshot()).(poreInlets := m.value) else old(Snapshot())
    {
      var pos := Positions(pores, np);
      ok := pos.Some?;
      if ok {
        WriteTrue(poreInlets, pos.value);
      }
    }

    /** `set_outlets(pores)`: as SetInlets, on `pore.outlets`. */
    method SetOutlets(pores: Locations) returns (ok: bool)
      requires Valid()
      modifies poreOutlets
      ensures Valid()
      ensures var m := MarkAt(old(poreOutlets[..]), pores);
        && ok == m.Some?
        && Snapshot() == if ok then old(Snapshot()).(poreOutlets := m.value) else old(Snapshot())
    {
      var pos := Positions(pores, np);
      ok := pos.Some?;
      if ok {
        WriteTrue(poreOutlets, pos.value);
      }
    }

    /** `set_residual(pores, throats)`: each given location set becomes residual. The pore
        write happens first; an IndexError on the throats leaves it in place. */
    method SetResidual(pores: Option<Locations>, throats: Option<Locations>) returns (ok: bool)
      requires Valid()
      modifies poreResidual, throatResidual
      ensures Valid()
      ensures var p := if pores.Some? then MarkAt(old(poreResidual[..]), pores.value) else Some(old(poreResidual[..]));
        var t := if throats.Some? then MarkAt(old(throatResidual[..]), throats.value) else Some(old(throatResidual[..]));
        && ok == (p.Some? && t.Some?)
        && Snapshot() == old(Snapshot()).(
             poreResidual := if p.Some? then p.value else old(poreResidual[..]),
             throatResidual := if p.Some? && t.Some? then t.value else old(throatResidual[..]))
    {
      ok := true;
      if pores.Some? {
        var pos := Positions(pores.value, np);
        if pos.None? {
          return false;
        }
        WriteTrue(poreResidual, pos.value);
      }
      if throats.Some? {
        var pos := Positions(throats.value, |conns|);
        if pos.None? {
          return false;
        }
        WriteTrue(throatResidual, pos.value);
      }
    }

    /** `set_trapped(pores, throats)`: as SetResidual, on the trapped arrays. */
    method SetTrapped(pores: Option<Locations>, throats: Option<Locations>) returns (ok: bool)
      requires Valid()
      modifies poreTrapped, throatTrapped
      ensures Valid()
      ensures var p := if pores.Some? then MarkAt(old(poreTrapped[..]), pores.value) else Some(old(poreTrapped[..]));
        var t := if throats.Some? then MarkAt(old(throatTrapped[..]), throats.value) else Some(old(throatTrapped[..]));
        && ok == (p.Some? && t.Some?)
        && Snapshot() == old(Snapshot()).(
             poreTrapped := if p.Some? then p.value else old(poreTrapped[..]),
             throatTrapped := if p.Some? && t.Some? then t.value else old(throatTrapped[..]))
    {
      ok := true;
      if pores.Some? {
        var pos := Positions(pores.value, np);
        if pos.None? {
          return false;
        }
        WriteTrue(poreTrapped, pos.value);
      }
      if throats.Some? {
        var pos := Positions(throats.value, |conns|);
        if pos.None? {
          return false;
        }
        WriteTrue(throatTrapped, pos.value);
      }
    }

    /** `run(pressure)`, with the phase's `throat.entry_pressure` array passed in as
        `thresholds`: one access-limited invasion step, performed in place. */
    method Run(pressure: real, thresholds: seq<real>)
      requires Valid() && |thresholds| == |conns|
      modifies poreInvaded, throatInvaded, poreTrapped, throatTrapped
      ensures Valid()
      ensures Snapshot() == RunStep(old(Snapshot()), conns, np, thresholds, pressure)
    {
      var open := OpenThroats(thresholds, throatResidual[..], pressure);
      var inv := SourceClusters(conns, open, np, poreInlets[..]);
      OrInto(poreInvaded, Reached(inv.sites));
      OrInto(throatInvaded, Reached(inv.bonds));
      if AnyTrue(poreOutlets[..]) {
        var tr := FindTrappedClusters(conns, throatInvaded[..], poreOutlets[..], np);
        OrInto(poreTrapped, Reached(tr.sites));
        OrInto(throatTrapped, Reached(tr.bonds));
      }
    }
  }
}
