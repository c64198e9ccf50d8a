/** Boundary-condition bookkeeping of `GenericAlgorithm`: one per-pore array
    'pore.bc.<type>' per boundary-condition type, each entry holding a value or
    no value, and `set_BC`, which adds, overwrites, removes or clears entries
    while keeping at most one type per pore. No value is `None` (NaN in the
    source). */
module GenericAlgorithm {
  import opened Wrappers
  import opened NdIndex
  import opened Parsing

  // ---------------------------------------------------------------------------
  // `isfinite`

  /** A float entry. */
  datatype Float = Num(x: real) | NaN | Inf(positive: bool)

  /** An array by its dtype: bool, float, or anything else (an entry that may be None). */
  datatype Column<T> = Bools(bs: seq<bool>) | Floats(fs: seq<Float>) | Others(os: seq<Option<T>>)

  function Length<T>(col: Column<T>): nat
  {
    match col
    case Bools(bs) => |bs|
    case Floats(fs) => |fs|
    case Others(os) => |os|
  }

  /** `isfinite(arr, inf)`: True entries of a bool array, entries that are not NaN of a float
      array, and entries other than `inf` of any other array. */
  function IsFinite<T(==)>(col: Column<T>, inf: Option<T>): (r: seq<bool>)
    ensures |r| == Length(col)
  {
    match col
    case Bools(bs) => seq(|bs|, i requires 0 <= i < |bs| => bs[i] == true)
    case Floats(fs) => seq(|fs|, i requires 0 <= i < |fs| => !fs[i].NaN?)
    case Others(os) => seq(|os|, i requires 0 <= i < |os| => os[i] != inf)
  }

  /** The float array in which None is NaN. */
  function AsFloats(a: seq<Option<real>>): (r: seq<Float>)
    ensures |r| == |a|
  {
    seq(|a|, i requires 0 <= i < |a| => if a[i].Some? then Num(a[i].value) else NaN)
  }

  /** Holding a value means the same thing for a NaN-padded float array and for an array of
      options compared with the default `inf=None`: the entry is present. */
  lemma IsFiniteMeansPresent(a: seq<Option<real>>)
    ensures IsFinite<real>(Floats(AsFloats(a)), None) == IsFinite(Others(a), None)
    ensures forall i :: 0 <= i < |a| ==> (IsFinite(Others(a), None)[i] <==> a[i].Some?)
  {
  }

  /** Infinities are "finite" here: only NaN counts as no value. */
  lemma IsFiniteInfinity()
    ensures IsFinite<int>(Floats([Inf(true), Inf(false), NaN, Num(0.0)]), None) == [true, true, false, true]
  {
  }

  /** A bool array holds a value exactly where it is True. */
  lemma IsFiniteBools<T>(bs: seq<bool>, inf: Option<T>)
    ensures IsFinite(Bools(bs), inf) == bs
  {
  }

  // ---------------------------------------------------------------------------
  // The arrays and the masks `set_BC` builds

  type Arrays<V> = map<string, seq<Option<V>>>

  /** Every 'pore.bc.*' array has one entry per pore. */
  ghost predicate Shaped<V>(bc: Arrays<V>, np: nat)
  {
    forall t | t in bc :: |bc[t]| == np
  }

  /** At most one type holds a value at any pore. */
  ghost predicate OneTypePerPore<V>(bc: Arrays<V>, np: nat)
    requires Shaped(bc, np)
  {
    forall t, u, p | t in bc && u in bc && t != u && 0 <= p < np :: !(bc[t][p].Some? && bc[u][p].Some?)
  }

  predicate InRange(ps: seq<nat>, np: nat)
  {
    forall k :: 0 <= k < |ps| ==> ps[k] < np
  }

  /** `arr[pores]`. */
  function Select<V>(arr: seq<Option<V>>, ps: seq<nat>): (r: seq<Option<V>>)
    requires InRange(ps, |arr|)
    ensures |r| == |ps| && forall k :: 0 <= k < |ps| ==> r[k] == arr[ps[k]]
  {
    seq(|ps|, k requires 0 <= k < |ps| => arr[ps[k]])
  }

  /** `mask[hits] = False`. */
  function Unset(mask: seq<bool>, hits: seq<bool>): (r: seq<bool>)
    requires |hits| == |mask|
    ensures |r| == |mask| && forall k :: 0 <= k < |mask| ==> (r[k] <==> mask[k] && !hits[k])
  {
    seq(|mask|, k requires 0 <= k < |mask| => mask[k] && !hits[k])
  }

  /** `mask.sum() > 0`. */
  predicate AnySet(mask: seq<bool>)
  {
    exists k | 0 <= k < |mask| :: mask[k]
  }

  /** The entries of the given pores that hold a value: `isfinite(arr[pores])`. */
  function Held<V(==)>(arr: seq<Option<V>>, ps: seq<nat>): (r: seq<bool>)
    requires InRange(ps, |arr|)
    ensures |r| == |ps| && forall k :: 0 <= k < |ps| ==> (r[k] <==> arr[ps[k]].Some?)
  {
    IsFinite(Others(Select(arr, ps)), None)
  }

  /** Some type of `types` holds a value at pore p. */
  predicate HeldBy<V>(bc: Arrays<V>, np: nat, types: set<string>, p: nat)
    requires Shaped(bc, np) && p < np
  {
    exists u | u in types && u in bc :: bc[u][p].Some?
  }

  /** The mask after `for item in types: mask[isfinite(bc[item][pores])] = False`. */
  function Free<V>(bc: Arrays<V>, np: nat, types: set<string>, ps: seq<nat>, mask: seq<bool>): (r: seq<bool>)
    requires Shaped(bc, np) && InRange(ps, np) && |mask| == |ps|
    ensures |r| == |ps| && forall k :: 0 <= k < |ps| ==> (r[k] <==> mask[k] && !HeldBy(bc, np, types, ps[k]))
  {
    seq(|ps|, k requires 0 <= k < |ps| => mask[k] && !HeldBy(bc, np, types, ps[k]))
  }

  /** Some marked position k < n addresses pore p. */
  predicate Hit(ps: seq<nat>, mask: seq<bool>, n: nat, p: nat)
    requires n <= |ps| && n <= |mask|
  {
    exists k | 0 <= k < n :: mask[k] && ps[k] == p
  }

  /** The last marked position k < n that addresses pore p. */
  function LastHit(ps: seq<nat>, mask: seq<bool>, n: nat, p: nat): (k: nat)
    requires n <= |ps| && n <= |mask| && Hit(ps, mask, n, p)
    ensures k < n && mask[k] && ps[k] == p
    ensures forall j | k < j < n :: !(mask[j] && ps[j] == p)
  {
    if mask[n - 1] && ps[n - 1] == p then n - 1
    else
      assert Hit(ps, mask, n - 1, p) by {
        var k :| 0 <= k < n && mask[k] && ps[k] == p;
        assert k < n - 1;
      }
      LastHit(ps, mask, n - 1, p)
  }

  /** `arr[pores[mask]] = vals[mask]` for the first n positions: numpy writes them left to
      right, so a pore addressed more than once ends up with the value of the last of them. */
  function Put<V>(arr: seq<Option<V>>, ps: seq<nat>, mask: seq<bool>, vals: seq<Option<V>>, n: nat)
    : (r: seq<Option<V>>)
    requires n <= |ps| && |mask| == |ps| && |vals| == |ps| && InRange(ps, |arr|)
    ensures |r| == |arr|
  {
    seq(|arr|, p requires 0 <= p < |arr| =>
      if Hit(ps, mask, n, p) then vals[LastHit(ps, mask, n, p)] else arr[p])
  }

  function Nones<V>(n: nat): (r: seq<Option<V>>)
    ensures |r| == n && forall k :: 0 <= k < n ==> r[k].None?
  {
    seq(n, _ => None)
  }

  function Somes<V>(vals: seq<V>): (r: seq<Option<V>>)
    ensures |r| == |vals| && forall k :: 0 <= k < |vals| ==> r[k] == Some(vals[k])
  {
    seq(|vals|, k requires 0 <= k < |vals| => Some(vals[k]))
  }

  /** `for item in types: bc[item][pores[mask]] = no_bc`. */
  function ClearedAt<V>(bc: Arrays<V>, np: nat, types: set<string>, ps: seq<nat>, mask: seq<bool>)
    : (r: Arrays<V>)
    requires Shaped(bc, np) && InRange(ps, np) && |mask| == |ps|
    ensures r.Keys == bc.Keys && Shaped(r, np)
  {
    map u | u in bc :: if u in types then Put(bc[u], ps, mask, Nones(|ps|), |ps|) else bc[u]
  }

  function Trues(n: nat): (r: seq<bool>)
    ensures |r| == n && forall k :: 0 <= k < n ==> r[k]
  {
    seq(n, _ => true)
  }

  /** The types other than t: `np.setdiff1d(bc_types, bctype)`. */
  function OtherTypes<V>(bc: Arrays<V>, t: string): set<string>
  {
    bc.Keys - {t}
  }

  // ---------------------------------------------------------------------------
  // One mode at in-range pores

  /** The result of one `set_BC` call: the arrays, and what was raised, if anything. */
  datatype Outcome<V> = Outcome(bc: Arrays<V>, error: Option<Error>)

  /** `mode='add'`: skip the pores where t already holds a value; with `force` clear the other
      types at the remaining pores; then skip the pores another type holds, and write the rest. */
  function Added<V(==)>(bc: Arrays<V>, np: nat, ps: seq<nat>, t: string, vals: seq<V>, force: bool)
    : (r: Outcome<V>)
    requires Shaped(bc, np) && InRange(ps, np) && t in bc
    requires |vals| == |ps| || |vals| == 0
    ensures Shaped(r.bc, np) && r.bc.Keys == bc.Keys
  {
    var others := OtherTypes(bc, t);
    var mask := Unset(Trues(|ps|), Held(bc[t], ps));
    var bc1 := if force then ClearedAt(bc, np, others, ps, mask) else bc;
    var mask := Free(bc1, np, others, ps, mask);
    if !AnySet(mask) then Outcome(bc1, None)
    else if |vals| == 0 then Outcome(bc1, Some(NoValues))
    else Outcome(bc1[t := Put(bc1[t], ps, mask, Somes(vals), |ps|)], None)
  }

  /** `mode='overwrite'`: with `force` clear the other types at every given pore; then skip the
      pores another type holds and write the rest. */
  function Overwritten<V(==)>(bc: Arrays<V>, np: nat, ps: seq<nat>, t: string, vals: seq<V>, force: bool)
    : (r: Outcome<V>)
    requires Shaped(bc, np) && InRange(ps, np)
    requires |vals| == |ps| || |vals| == 0
    ensures Shaped(r.bc, np) && r.bc.Keys == bc.Keys
  {
    var others := OtherTypes(bc, t);
    var bc1 := if force then ClearedAt(bc, np, others, ps, Trues(|ps|)) else bc;
    var mask := Free(bc1, np, others, ps, Trues(|ps|));
    if !AnySet(mask) then Outcome(bc1, None)
    else if |vals| == 0 then Outcome(bc1, Some(NoValues))
    else if t !in bc1 then Outcome(bc1, Some(UnknownBCType))
    else Outcome(bc1[t := Put(bc1[t], ps, mask, Somes(vals), |ps|)], None)
  }

  /** `mode='remove'`: with `force` clear the other types at every given pore; then clear t at
      the given pores no other type holds. */
  function Removed<V(==)>(bc: Arrays<V>, np: nat, ps: seq<nat>, t: string, force: bool)
    : (r: Outcome<V>)
    requires Shaped(bc, np) && InRange(ps, np)
    ensures Shaped(r.bc, np) && r.bc.Keys == bc.Keys
  {
    var others := OtherTypes(bc, t);
    var bc1 := if force then ClearedAt(bc, np, others, ps, Trues(|ps|)) else bc;
    var mask := Free(bc1, np, others, ps, Trues(|ps|));
    if !AnySet(mask) then Outcome(bc1, None)
    else if t !in bc1 then Outcome(bc1, Some(UnknownBCType))
    else Outcome(bc1[t := Put(bc1[t], ps, mask, Nones(|ps|), |ps|)], None)
  }

  /** `mode='clear'`: the whole of t, and with `force` of every other type, set to no value;
      t is created when it does not exist. */
  function ClearedAll<V>(bc: Arrays<V>, np: nat, t: string, force: bool): (r: Arrays<V>)
    requires Shaped(bc, np)
    ensures Shaped(r, np) && r.Keys == bc.Keys + {t}
  {
    var bc1 := bc[t := Nones(np)];
    if force then map u | u in bc1 :: Nones(np) else bc1
  }

  // ---------------------------------------------------------------------------
  // `set_BC`

  const Modes: seq<string> := ["overwrite", "add", "remove", "clear"]

  /** The mode given as a single string, once it is known to be allowed. */
  function Applied<V(==)>(bc: Arrays<V>, np: nat, ints: seq<int>, t: string, vals: seq<V>, mode: string, force: bool)
    : (r: Outcome<V>)
    requires Shaped(bc, np)
    requires |vals| == |ints| || |vals| == 0
    ensures Shaped(r.bc, np)
  {
    var others := OtherTypes(bc, t);
    var pos := Positions(Indices(ints), np);
    if mode == "clear" then Outcome(ClearedAll(bc, np, t, force), None)
    else if mode == "add" then
      if t !in bc then Outcome(bc, Some(UnknownBCType))
      else if pos.None? then Outcome(bc, Some(IndexOutOfRange))
      else Added(bc, np, pos.value, t, vals, force)
    else if mode == "overwrite" then
      if pos.Some? then Overwritten(bc, np, pos.value, t, vals, force)
      else if others != {} then Outcome(bc, Some(IndexOutOfRange))
      else if |vals| == 0 then Outcome(bc, Some(NoValues))
      else if t !in bc then Outcome(bc, Some(UnknownBCType))
      else Outcome(bc, Some(IndexOutOfRange))
    else
      if pos.Some? then Removed(bc, np, pos.value, t, force)
      else if others != {} || t in bc then Outcome(bc, Some(IndexOutOfRange))
      else Outcome(bc, Some(UnknownBCType))
  }

  /** `set_BC(pores, bctype, bcvalues, mode, force)` for a single mode string. `bctype` is None
      when it is not a str; `np` and `nt` are the pore and throat counts. */
  function SetOne<V(==)>(bc: Arrays<V>, np: nat, nt: nat, pores: Option<Locations>, bctype: Option<string>,
                         values: seq<V>, mode: string, force: bool): (r: Outcome<V>)
    requires Shaped(bc, np)
    ensures Shaped(r.bc, np)
  {
    if bctype.None? then Outcome(bc, Some(NotAString))
    else if |bc| == 0 then Outcome(bc, Some(NoBCArrays))
    else match ParsedMode(Str(mode), Some(Modes), true)
      case Err(e) => Outcome(bc, Some(e))
      case Ok(m) =>
        match ParsedIndices(pores, np, nt)
        case Err(e) => Outcome(bc, Some(e))
        case Ok(ints) =>
          var vals := if |values| == 1 then seq(|ints|, _ => values[0]) else values;
          if |vals| > 1 && |vals| != |ints| then Outcome(bc, Some(ValuesMismatch))
          else if m.Many? then Outcome(bc, Some(MultipleModes))
          else Applied(bc, np, ints, bctype.value, vals, m.sole, force)
  }

  /** The modes of a list from position i on, each applied to the arrays the previous one left;
      an error stops the rest. */
  function SetFrom<V(==)>(bc: Arrays<V>, np: nat, nt: nat, pores: Option<Locations>, bctype: Option<string>,
                          values: seq<V>, modes: seq<string>, i: nat, force: bool): (r: Outcome<V>)
    requires Shaped(bc, np)
    ensures Shaped(r.bc, np)
    decreases |modes| - i
  {
    if i >= |modes| then Outcome(bc, None)
    else
      var o := SetOne(bc, np, nt, pores, bctype, values, modes[i], force);
      if o.error.Some? then o else SetFrom(o.bc, np, nt, pores, bctype, values, modes, i + 1, force)
  }

  /** `set_BC` with a mode string or a list of them. */
  function SetBCOf<V(==)>(bc: Arrays<V>, np: nat, nt: nat, pores: Option<Locations>, bctype: Option<string>,
                          values: seq<V>, mode: Names, force: bool): (r: Outcome<V>)
    requires Shaped(bc, np)
    ensures Shaped(r.bc, np)
  {
    match mode
    case Str(s) => SetOne(bc, np, nt, pores, bctype, values, s, force)
    case List(items) => SetFrom(bc, np, nt, pores, bctype, values, items, 0, force)
  }

  // ---------------------------------------------------------------------------
  // Writes

  /** Writing one more position is a single update of the result so far: the fold the
      source performs position by position. */
  lemma PutStep<V>(arr: seq<Option<V>>, ps: seq<nat>, mask: seq<bool>, vals: seq<Option<V>>, n: nat)
    requires n < |ps| && |mask| == |ps| && |vals| == |ps| && InRange(ps, |arr|)
    ensures Put(arr, ps, mask, vals, n + 1)
      == if mask[n] then Put(arr, ps, mask, vals, n)[ps[n] := vals[n]] else Put(arr, ps, mask, vals, n)
  {
    var a := Put(arr, ps, mask, vals, n);
    var b := Put(arr, ps, mask, vals, n + 1);
    var c := if mask[n] then a[ps[n] := vals[n]] else a;
    forall p | 0 <= p < |arr|
      ensures b[p] == c[p]
    {
      if mask[n] && ps[n] == p {
        assert Hit(ps, mask, n + 1, p);
      } else if Hit(ps, mask, n, p) {
        var k := LastHit(ps, mask, n, p);
        assert Hit(ps, mask, n + 1, p);
        assert LastHit(ps, mask, n + 1, p) == k;
      } else {
        assert !Hit(ps, mask, n + 1, p);
      }
    }
  }

  /** A second write through the same mask replaces the first entirely. */
  lemma PutTwice<V>(a: seq<Option<V>>, ps: seq<nat>, mask: seq<bool>, v1: seq<Option<V>>, v2: seq<Option<V>>)
    requires |mask| == |ps| && |v1| == |ps| && |v2| == |ps| && InRange(ps, |a|)
    ensures Put(Put(a, ps, mask, v1, |ps|), ps, mask, v2, |ps|) == Put(a, ps, mask, v2, |ps|)
  {
  }

  /** Clearing only ever removes values. */
  lemma PutNones<V>(arr: seq<Option<V>>, ps: seq<nat>, mask: seq<bool>, p: nat)
    requires |mask| == |ps| && InRange(ps, |arr|) && p < |arr|
    ensures var r := Put(arr, ps, mask, Nones(|ps|), |ps|);
      (r[p].Some? ==> r[p] == arr[p]) && (Hit(ps, mask, |ps|, p) ==> r[p].None?)
  {
  }

  lemma ClearedAtKeeps<V>(bc: Arrays<V>, np: nat, types: set<string>, ps: seq<nat>, mask: seq<bool>)
    requires Shaped(bc, np) && InRange(ps, np) && |mask| == |ps|
    ensures var r := ClearedAt(bc, np, types, ps, mask);
      forall u, p | u in bc && 0 <= p < np && r[u][p].Some? :: r[u][p] == bc[u][p]
  {
    var r: Arrays<V> := ClearedAt(bc, np, types, ps, mask);
    forall u: string, p: int | u in bc && 0 <= p < np && r[u][p].Some?
      ensures r[u][p] == bc[u][p]
    {
      if u in types {
        PutNones(bc[u], ps, mask, p);
      }
    }
  }

  /** An array whose values are all earlier values, beside others that are unchanged or cleared,
      keeps one type per pore. */
  lemma ShrunkOneType<V>(bc: Arrays<V>, r: Arrays<V>, np: nat)
    requires Shaped(bc, np) && Shaped(r, np) && r.Keys <= bc.Keys && OneTypePerPore(bc, np)
    requires forall u, p | u in r && 0 <= p < np && r[u][p].Some? :: r[u][p] == bc[u][p]
    ensures OneTypePerPore(r, np)
  {
  }

  /** Writing t only at pores no other type holds keeps one type per pore. */
  lemma WriteFreeOneType<V>(bc: Arrays<V>, np: nat, t: string, ps: seq<nat>, mask: seq<bool>, vals: seq<Option<V>>)
    requires Shaped(bc, np) && InRange(ps, np) && |mask| == |ps| && |vals| == |ps| && t in bc
    requires OneTypePerPore(bc, np)
    requires forall k :: 0 <= k < |ps| && mask[k] ==> !HeldBy(bc, np, OtherTypes(bc, t), ps[k])
    ensures var r := bc[t := Put(bc[t], ps, mask, vals, |ps|)];
      Shaped(r, np) && OneTypePerPore(r, np)
  {
    var w := Put(bc[t], ps, mask, vals, |ps|);
    var r: Arrays<V> := bc[t := w];
    forall u: string, v: string, p: int | u in r && v in r && u != v && 0 <= p < np
      ensures !(r[u][p].Some? && r[v][p].Some?)
    {
      if u == t || v == t {
        var o := if u == t then v else u;
        if Hit(ps, mask, |ps|, p) {
          var k :| 0 <= k < |ps| && mask[k] && ps[k] == p;
          assert !HeldBy(bc, np, OtherTypes(bc, t), p);
          assert o in OtherTypes(bc, t);
        }
      }
    }
  }

  // ---------------------------------------------------------------------------
  // What `set_BC` promises, mode by mode

  /** `add` never changes a pore where t already holds a value. Without `force`, every pore
      another type holds is left as it was in every array, and no other array changes. */
  lemma AddedKeeps<V>(bc: Arrays<V>, np: nat, ps: seq<nat>, t: string, vals: seq<V>, force: bool)
    requires Shaped(bc, np) && InRange(ps, np) && t in bc && (|vals| == |ps| || |vals| == 0)
    ensures var r := Added(bc, np, ps, t, vals, force).bc;
      forall p | 0 <= p < np && bc[t][p].Some? :: r[t][p] == bc[t][p]
    ensures var r := Added(bc, np, ps, t, vals, force).bc;
      !force ==> forall p | 0 <= p < np && HeldBy(bc, np, OtherTypes(bc, t), p) :: r[t][p] == bc[t][p]
    ensures var r := Added(bc, np, ps, t, vals, force).bc;
      !force ==> forall u | u in bc && u != t :: r[u] == bc[u]
  {
    var others := OtherTypes(bc, t);
    var mask0 := Unset(Trues(|ps|), Held(bc[t], ps));
    var bc1 := if force then ClearedAt(bc, np, others, ps, mask0) else bc;
    assert bc1[t] == bc[t];
    var mask := Free(bc1, np, others, ps, mask0);
    var r := Added(bc, np, ps, t, vals, force).bc;
    forall p | 0 <= p < np && (bc[t][p].Some? || (!force && HeldBy(bc, np, others, p)))
      ensures r[t][p] == bc[t][p]
    {
      if AnySet(mask) && |vals| > 0 {
        assert !Hit(ps, mask, |ps|, p);
      }
    }
  }

  /** Clearing through an all-True mask leaves the cleared types without a value at every
      given pore. */
  lemma ClearedEverywhere<V>(bc: Arrays<V>, np: nat, types: set<string>, ps: seq<nat>)
    requires Shaped(bc, np) && InRange(ps, np)
    ensures var r := ClearedAt(bc, np, types, ps, Trues(|ps|));
      forall u, k | u in bc && u in types && 0 <= k < |ps| :: r[u][ps[k]].None?
  {
    var r: Arrays<V> := ClearedAt(bc, np, types, ps, Trues(|ps|));
    forall u: string, k: int | u in bc && u in types && 0 <= k < |ps|
      ensures r[u][ps[k]].None?
    {
      assert Hit(ps, Trues(|ps|), |ps|, ps[k]);
    }
  }

  /** Every marked position's pore receives one of the values supplied for that pore. */
  lemma PutWrites<V>(arr: seq<Option<V>>, ps: seq<nat>, mask: seq<bool>, vals: seq<V>)
    requires |mask| == |ps| && |vals| == |ps| && InRange(ps, |arr|)
    ensures var w := Put(arr, ps, mask, Somes(vals), |ps|);
      forall k | 0 <= k < |ps| && mask[k] :: exists j | 0 <= j < |ps| :: ps[j] == ps[k] && w[ps[k]] == Some(vals[j])
  {
    var w := Put(arr, ps, mask, Somes(vals), |ps|);
    forall k | 0 <= k < |ps| && mask[k]
      ensures exists j | 0 <= j < |ps| :: ps[j] == ps[k] && w[ps[k]] == Some(vals[j])
    {
      assert Hit(ps, mask, |ps|, ps[k]);
      var j := LastHit(ps, mask, |ps|, ps[k]);
      assert w[ps[k]] == Some(vals[j]);
    }
  }

  /** `add` writes one of the values supplied for a pore at every given pore that t does not
      hold and, unless `force` is set, no other type holds either. */
  lemma AddedWrites<V>(bc: Arrays<V>, np: nat, ps: seq<nat>, t: string, vals: seq<V>, force: bool)
    requires Shaped(bc, np) && InRange(ps, np) && t in bc && |vals| == |ps|
    ensures var o := Added(bc, np, ps, t, vals, force);
      forall k | 0 <= k < |ps| && bc[t][ps[k]].None? && (force || !HeldBy(bc, np, OtherTypes(bc, t), ps[k])) ::
        exists j | 0 <= j < |ps| :: ps[j] == ps[k] && o.bc[t][ps[k]] == Some(vals[j])
  {
    var others := OtherTypes(bc, t);
    var mask0 := Unset(Trues(|ps|), Held(bc[t], ps));
    var bc1 := if force then ClearedAt(bc, np, others, ps, mask0) else bc;
    var mask := Free(bc1, np, others, ps, mask0);
    assert bc1[t] == bc[t];
    if force {
      AddedClearsFirst(bc, np, ps, t);
    }
    forall k | 0 <= k < |ps| && bc[t][ps[k]].None? && (force || !HeldBy(bc, np, others, ps[k]))
      ensures mask[k]
    {
    }
    if AnySet(mask) {
      PutWrites(bc1[t], ps, mask, vals);
    } else {
      assert forall k | 0 <= k < |ps| :: !mask[k];
    }
  }

  /** With `force`, the first step of `add` leaves no other type holding a value at a given
      pore that t does not hold. */
  lemma AddedClearsFirst<V>(bc: Arrays<V>, np: nat, ps: seq<nat>, t: string)
    requires Shaped(bc, np) && InRange(ps, np) && t in bc
    ensures var mask0 := Unset(Trues(|ps|), Held(bc[t], ps));
      var bc1: Arrays<V> := ClearedAt(bc, np, OtherTypes(bc, t), ps, mask0);
      forall k | 0 <= k < |ps| && bc[t][ps[k]].None? :: !HeldBy(bc1, np, OtherTypes(bc, t), ps[k])
  {
    var others := OtherTypes(bc, t);
    var mask0 := Unset(Trues(|ps|), Held(bc[t], ps));
    var bc1: Arrays<V> := ClearedAt(bc, np, others, ps, mask0);
    forall k: int, u: string | 0 <= k < |ps| && bc[t][ps[k]].None? && u in others && u in bc
      ensures bc1[u][ps[k]].None?
    {
      assert Hit(ps, mask0, |ps|, ps[k]);
      PutNones(bc[u], ps, mask0, ps[k]);
    }
  }

  /** `add` with `force` leaves every other type without a value at the given pores that t did
      not hold. */
  lemma AddedClears<V>(bc: Arrays<V>, np: nat, ps: seq<nat>, t: string, vals: seq<V>)
    requires Shaped(bc, np) && InRange(ps, np) && t in bc && |vals| == |ps|
    ensures var o := Added(bc, np, ps, t, vals, true);
      forall u: string, k: int | u in bc && u != t && 0 <= k < |ps| && bc[t][ps[k]].None? :: o.bc[u][ps[k]].None?
  {
    var others := OtherTypes(bc, t);
    var mask0 := Unset(Trues(|ps|), Held(bc[t], ps));
    AddedClearsFirst(bc, np, ps, t);
    var bc1: Arrays<V> := ClearedAt(bc, np, others, ps, mask0);
    forall u: string, k: int | u in bc && u != t && 0 <= k < |ps| && bc[t][ps[k]].None?
      ensures bc1[u][ps[k]].None?
    {
      assert u in others;
      assert !HeldBy(bc1, np, others, ps[k]);
    }
  }

  /** `overwrite` at in-range pores with one value per pore raises nothing. */
  lemma OverwrittenSucceeds<V>(bc: Arrays<V>, np: nat, ps: seq<nat>, t: string, vals: seq<V>, force: bool)
    requires Shaped(bc, np) && InRange(ps, np) && t in bc && |vals| == |ps|
    ensures Overwritten(bc, np, ps, t, vals, force).error.None?
  {
  }

  /** `overwrite` writes one of the values supplied for a pore at every given pore no other
      type holds, and with `force` at every given pore. */
  lemma OverwrittenWrites<V>(bc: Arrays<V>, np: nat, ps: seq<nat>, t: string, vals: seq<V>, force: bool)
    requires Shaped(bc, np) && InRange(ps, np) && t in bc && |vals| == |ps|
    ensures var o := Overwritten(bc, np, ps, t, vals, force);
      forall k | 0 <= k < |ps| && (force || !HeldBy(bc, np, OtherTypes(bc, t), ps[k])) ::
        exists j | 0 <= j < |ps| :: ps[j] == ps[k] && o.bc[t][ps[k]] == Some(vals[j])
  {
    var others := OtherTypes(bc, t);
    var bc1 := if force then ClearedAt(bc, np, others, ps, Trues(|ps|)) else bc;
    var mask := Free(bc1, np, others, ps, Trues(|ps|));
    assert bc1[t] == bc[t];
    if force {
      ClearedEverywhere(bc, np, others, ps);
    }
    forall k | 0 <= k < |ps| && (force || !HeldBy(bc, np, others, ps[k]))
      ensures mask[k]
    {
    }
    if AnySet(mask) {
      PutWrites(bc1[t], ps, mask, vals);
    } else {
      assert forall k | 0 <= k < |ps| :: !mask[k];
    }
  }

  /** `overwrite` with `force` leaves every other type without a value at the given pores. */
  lemma OverwrittenClears<V>(bc: Arrays<V>, np: nat, ps: seq<nat>, t: string, vals: seq<V>)
    requires Shaped(bc, np) && InRange(ps, np) && t in bc && |vals| == |ps|
    ensures var o := Overwritten(bc, np, ps, t, vals, true);
      forall u, k | u in bc && u != t && 0 <= k < |ps| :: o.bc[u][ps[k]].None?
  {
    ClearedEverywhere(bc, np, OtherTypes(bc, t), ps);
  }

  /** `remove` clears t at every given pore no other type holds; with `force` every type is
      cleared at every given pore. */
  lemma RemovedClears<V>(bc: Arrays<V>, np: nat, ps: seq<nat>, t: string, force: bool)
    requires Shaped(bc, np) && InRange(ps, np) && t in bc
    ensures var o := Removed(bc, np, ps, t, force);
      && o.error.None?
      && (forall k | 0 <= k < |ps| && (force || !HeldBy(bc, np, OtherTypes(bc, t), ps[k])) :: o.bc[t][ps[k]].None?)
      && (force ==> forall u, k | u in bc && 0 <= k < |ps| :: o.bc[u][ps[k]].None?)
  {
    var others := OtherTypes(bc, t);
    var bc1 := if force then ClearedAt(bc, np, others, ps, Trues(|ps|)) else bc;
    var mask := Free(bc1, np, others, ps, Trues(|ps|));
    assert bc1[t] == bc[t];
    if force {
      forall u, k | u in bc && u != t && 0 <= k < |ps|
        ensures bc1[u][ps[k]].None?
      {
        PutNones(bc[u], ps, Trues(|ps|), ps[k]);
      }
    }
    if AnySet(mask) {
      forall k | 0 <= k < |ps| && mask[k]
        ensures Put(bc1[t], ps, mask, Nones(|ps|), |ps|)[ps[k]].None?
      {
        assert Hit(ps, mask, |ps|, ps[k]);
        PutNones(bc1[t], ps, mask, ps[k]);
      }
    }
  }

  /** `clear` leaves t without any value, and with `force` every type; without `force` the other
      types are unchanged. */
  lemma ClearedAllEmpties<V>(bc: Arrays<V>, np: nat, t: string, force: bool)
    requires Shaped(bc, np)
    ensures var r := ClearedAll(bc, np, t, force);
      && (forall p | 0 <= p < np :: r[t][p].None?)
      && (force ==> forall u, p | u in r && 0 <= p < np :: r[u][p].None?)
      && (!force ==> forall u | u in bc && u != t :: r[u] == bc[u])
  {
  }

  /** Pores that are not given keep their entries in every array under `add`, `overwrite` and
      `remove`. */
  lemma UntouchedPores<V>(bc: Arrays<V>, np: nat, ps: seq<nat>, t: string, vals: seq<V>, mode: string, force: bool)
    requires Shaped(bc, np) && InRange(ps, np) && (|vals| == |ps| || |vals| == 0)
    requires mode == "add" ==> t in bc
    ensures var r := if mode == "add" then Added(bc, np, ps, t, vals, force)
                     else if mode == "overwrite" then Overwritten(bc, np, ps, t, vals, force)
                     else Removed(bc, np, ps, t, force);
      forall u, p | u in bc && 0 <= p < np && (forall k :: 0 <= k < |ps| ==> ps[k] != p) :: r.bc[u][p] == bc[u][p]
  {
    if mode == "add" {
      UntouchedByAdd(bc, np, ps, t, vals, force);
    } else if mode == "overwrite" {
      UntouchedByOverwrite(bc, np, ps, t, vals, force);
    } else {
      UntouchedByRemove(bc, np, ps, t, force);
    }
  }

  lemma UntouchedByAdd<V>(bc: Arrays<V>, np: nat, ps: seq<nat>, t: string, vals: seq<V>, force: bool)
    requires Shaped(bc, np) && InRange(ps, np) && (|vals| == |ps| || |vals| == 0) && t in bc
    ensures var r := Added(bc, np, ps, t, vals, force);
      forall u, p | u in bc && 0 <= p < np && (forall k :: 0 <= k < |ps| ==> ps[k] != p) :: r.bc[u][p] == bc[u][p]
  {
    PutOutside<V>(np, ps);
  }

  lemma UntouchedByOverwrite<V>(bc: Arrays<V>, np: nat, ps: seq<nat>, t: string, vals: seq<V>, force: bool)
    requires Shaped(bc, np) && InRange(ps, np) && (|vals| == |ps| || |vals| == 0)
    ensures var r := Overwritten(bc, np, ps, t, vals, force);
      forall u, p | u in bc && 0 <= p < np && (forall k :: 0 <= k < |ps| ==> ps[k] != p) :: r.bc[u][p] == bc[u][p]
  {
    PutOutside<V>(np, ps);
  }

  lemma UntouchedByRemove<V>(bc: Arrays<V>, np: nat, ps: seq<nat>, t: string, force: bool)
    requires Shaped(bc, np) && InRange(ps, np)
    ensures var r := Removed(bc, np, ps, t, force);
      forall u, p | u in bc && 0 <= p < np && (forall k :: 0 <= k < |ps| ==> ps[k] != p) :: r.bc[u][p] == bc[u][p]
  {
    PutOutside<V>(np, ps);
  }

  /** Writing at the locations ps leaves every other position as it was. */
  lemma PutOutside<V>(np: nat, ps: seq<nat>)
    requires InRange(ps, np)
    ensures forall arr: seq<Option<V>>, mask: seq<bool>, vs: seq<Option<V>>, p: nat |
      |arr| == np && |mask| == |ps| && |vs| == |ps| && p < np && (forall k :: 0 <= k < |ps| ==> ps[k] != p) ::
        Put(arr, ps, mask, vs, |ps|)[p] == arr[p]
  {
    forall arr: seq<Option<V>>, mask: seq<bool>, vs: seq<Option<V>>, p: nat |
      |arr| == np && |mask| == |ps| && |vs| == |ps| && p < np && (forall k :: 0 <= k < |ps| ==> ps[k] != p)
      ensures Put(arr, ps, mask, vs, |ps|)[p] == arr[p]
    {
      assert !Hit(ps, mask, |ps|, p);
    }
  }

  lemma AddedOneType<V>(bc: Arrays<V>, np: nat, ps: seq<nat>, t: string, vals: seq<V>, force: bool)
    requires Shaped(bc, np) && InRange(ps, np) && t in bc && (|vals| == |ps| || |vals| == 0)
    requires OneTypePerPore(bc, np)
    ensures OneTypePerPore(Added(bc, np, ps, t, vals, force).bc, np)
  {
    var others := OtherTypes(bc, t);
    var mask0 := Unset(Trues(|ps|), Held(bc[t], ps));
    var bc1 := if force then ClearedAt(bc, np, others, ps, mask0) else bc;
    ClearedAtKeeps(bc, np, others, ps, mask0);
    ShrunkOneType(bc, bc1, np);
    var mask := Free(bc1, np, others, ps, mask0);
    assert OtherTypes(bc1, t) == others;
    if AnySet(mask) && |vals| > 0 {
      WriteFreeOneType(bc1, np, t, ps, mask, Somes(vals));
    }
  }

  lemma OverwrittenOneType<V>(bc: Arrays<V>, np: nat, ps: seq<nat>, t: string, vals: seq<V>, force: bool)
    requires Shaped(bc, np) && InRange(ps, np) && (|vals| == |ps| || |vals| == 0)
    requires OneTypePerPore(bc, np)
    ensures OneTypePerPore(Overwritten(bc, np, ps, t, vals, force).bc, np)
  {
    var others := OtherTypes(bc, t);
    var bc1 := if force then ClearedAt(bc, np, others, ps, Trues(|ps|)) else bc;
    ClearedAtKeeps(bc, np, others, ps, Trues(|ps|));
    ShrunkOneType(bc, bc1, np);
    var mask := Free(bc1, np, others, ps, Trues(|ps|));
    assert OtherTypes(bc1, t) == others;
    if AnySet(mask) && |vals| > 0 && t in bc1 {
      WriteFreeOneType(bc1, np, t, ps, mask, Somes(vals));
    }
  }

  lemma RemovedOneType<V>(bc: Arrays<V>, np: nat, ps: seq<nat>, t: string, force: bool)
    requires Shaped(bc, np) && InRange(ps, np)
    requires OneTypePerPore(bc, np)
    ensures OneTypePerPore(Removed(bc, np, ps, t, force).bc, np)
  {
    var others := OtherTypes(bc, t);
    var bc1 := if force then ClearedAt(bc, np, others, ps, Trues(|ps|)) else bc;
    ClearedAtKeeps(bc, np, others, ps, Trues(|ps|));
    ShrunkOneType(bc, bc1, np);
    var mask := Free(bc1, np, others, ps, Trues(|ps|));
    var r: Arrays<V> := Removed(bc, np, ps, t, force).bc;
    if AnySet(mask) && t in bc1 {
      forall u: string, p: int | u in r && 0 <= p < np && r[u][p].Some?
        ensures r[u][p] == bc1[u][p]
      {
        if u == t {
          PutNones(bc1[t], ps, mask, p);
        }
      }
      ShrunkOneType(bc1, r, np);
    }
  }

  /** Every mode keeps at most one type per pore. */
  lemma AppliedOneType<V>(bc: Arrays<V>, np: nat, ints: seq<int>, t: string, vals: seq<V>, mode: string, force: bool)
    requires Shaped(bc, np) && OneTypePerPore(bc, np)
    requires |vals| == |ints| || |vals| == 0
    ensures OneTypePerPore(Applied(bc, np, ints, t, vals, mode, force).bc, np)
  {
    var pos := Positions(Indices(ints), np);
    if mode != "clear" && pos.Some? {
      if mode == "add" {
        if t in bc {
          AddedOneType(bc, np, pos.value, t, vals, force);
        }
      } else if mode == "overwrite" {
        OverwrittenOneType(bc, np, pos.value, t, vals, force);
      } else {
        RemovedOneType(bc, np, pos.value, t, force);
      }
    }
  }

  // ---------------------------------------------------------------------------
  // A list of modes

  /** Clearing types that hold no value at the marked pores changes nothing. */
  lemma ClearedAtFixed<V>(bc: Arrays<V>, np: nat, types: set<string>, ps: seq<nat>, mask: seq<bool>)
    requires Shaped(bc, np) && InRange(ps, np) && |mask| == |ps|
    requires forall u, k | u in bc && u in types && 0 <= k < |ps| && mask[k] :: bc[u][ps[k]].None?
    ensures ClearedAt(bc, np, types, ps, mask) == bc
  {
    var r := ClearedAt(bc, np, types, ps, mask);
    forall u | u in bc
      ensures r[u] == bc[u]
    {
      if u in types {
        forall p | 0 <= p < np
          ensures r[u][p] == bc[u][p]
        {
          if Hit(ps, mask, |ps|, p) {
            var k := LastHit(ps, mask, |ps|, p);
            assert bc[u][ps[k]].None?;
          }
        }
      }
    }
  }

  /** Without `force`, `remove` followed by `add` is `overwrite`. */
  lemma RemoveAddUnforced<V>(bc: Arrays<V>, np: nat, ps: seq<nat>, t: string, vals: seq<V>)
    requires Shaped(bc, np) && InRange(ps, np) && t in bc && |vals| == |ps|
    ensures var o := Removed(bc, np, ps, t, false);
      o.error.None? && Added(o.bc, np, ps, t, vals, false) == Overwritten(bc, np, ps, t, vals, false)
  {
    var others := OtherTypes(bc, t);
    var mask := Free(bc, np, others, ps, Trues(|ps|));
    var o := Removed(bc, np, ps, t, false);
    var bc2 := o.bc;
    var held := Held(bc2[t], ps);
    var mask2 := Free(bc2, np, others, ps, Unset(Trues(|ps|), held));
    assert OtherTypes(bc2, t) == others;
    if AnySet(mask) {
      assert bc2 == bc[t := Put(bc[t], ps, mask, Nones(|ps|), |ps|)];
      forall k | 0 <= k < |ps|
        ensures mask2[k] == mask[k]
      {
        assert HeldBy(bc2, np, others, ps[k]) == HeldBy(bc, np, others, ps[k]);
        if mask[k] {
          assert Hit(ps, mask, |ps|, ps[k]);
        }
      }
      assert mask2 == mask;
      PutTwice(bc[t], ps, mask, Nones(|ps|), Somes(vals));
    } else {
      assert bc2 == bc;
      assert forall k | 0 <= k < |ps| :: !mask2[k];
    }
  }

  /** With `force`, `remove` followed by `add` is `overwrite`. */
  lemma RemoveAddForced<V>(bc: Arrays<V>, np: nat, ps: seq<nat>, t: string, vals: seq<V>)
    requires Shaped(bc, np) && InRange(ps, np) && t in bc && |vals| == |ps|
    ensures var o := Removed(bc, np, ps, t, true);
      o.error.None? && Added(o.bc, np, ps, t, vals, true) == Overwritten(bc, np, ps, t, vals, true)
  {
    var others := OtherTypes(bc, t);
    var bc1 := ClearedAt(bc, np, others, ps, Trues(|ps|));
    ClearedEverywhere(bc, np, others, ps);
    FreeOnCleared(bc1, np, others, ps);
    if |ps| > 0 {
      var cleared := Put(bc1[t], ps, Trues(|ps|), Nones(|ps|), |ps|);
      RemovedForced(bc, np, ps, t);
      OverwrittenForced(bc, np, ps, t, vals);
      AddedOnCleared(bc1, np, ps, t, vals, others);
    } else {
      ClearedAtFixed(bc1, np, others, ps, []);
    }
  }

  /** Once the types are cleared at the pores, none of the pores is held by them. */
  lemma FreeOnCleared<V>(bc: Arrays<V>, np: nat, types: set<string>, ps: seq<nat>)
    requires Shaped(bc, np) && InRange(ps, np)
    requires forall u, k | u in bc && u in types && 0 <= k < |ps| :: bc[u][ps[k]].None?
    ensures Free(bc, np, types, ps, Trues(|ps|)) == Trues(|ps|)
  {
  }

  /** With `force`, removing at some pores clears the other types there and then t. */
  lemma RemovedForced<V>(bc: Arrays<V>, np: nat, ps: seq<nat>, t: string)
    requires Shaped(bc, np) && InRange(ps, np) && t in bc && |ps| > 0
    requires var bc1 := ClearedAt(bc, np, OtherTypes(bc, t), ps, Trues(|ps|));
      Free(bc1, np, OtherTypes(bc, t), ps, Trues(|ps|)) == Trues(|ps|)
    ensures var bc1 := ClearedAt(bc, np, OtherTypes(bc, t), ps, Trues(|ps|));
      Removed(bc, np, ps, t, true) == Outcome(bc1[t := Put(bc1[t], ps, Trues(|ps|), Nones(|ps|), |ps|)], None)
  {
    assert Trues(|ps|)[0];
  }

  /** With `force`, overwriting at some pores clears the other types there and writes t. */
  lemma OverwrittenForced<V>(bc: Arrays<V>, np: nat, ps: seq<nat>, t: string, vals: seq<V>)
    requires Shaped(bc, np) && InRange(ps, np) && t in bc && |vals| == |ps| && |ps| > 0
    requires var bc1 := ClearedAt(bc, np, OtherTypes(bc, t), ps, Trues(|ps|));
      Free(bc1, np, OtherTypes(bc, t), ps, Trues(|ps|)) == Trues(|ps|)
    ensures var bc1 := ClearedAt(bc, np, OtherTypes(bc, t), ps, Trues(|ps|));
      Overwritten(bc, np, ps, t, vals, true) == Outcome(bc1[t := Put(bc1[t], ps, Trues(|ps|), Somes(vals), |ps|)], None)
  {
    assert Trues(|ps|)[0];
  }

  /** Adding with `force` where the other types are already clear and t was just cleared writes
      every given pore. */
  lemma AddedOnCleared<V>(bc1: Arrays<V>, np: nat, ps: seq<nat>, t: string, vals: seq<V>, others: set<string>)
    requires Shaped(bc1, np) && InRange(ps, np) && t in bc1 && |vals| == |ps| && |ps| > 0
    requires others == OtherTypes(bc1, t)
    requires forall u, k | u in bc1 && u in others && 0 <= k < |ps| :: bc1[u][ps[k]].None?
    ensures var bc2 := bc1[t := Put(bc1[t], ps, Trues(|ps|), Nones(|ps|), |ps|)];
      Added(bc2, np, ps, t, vals, true) == Outcome(bc1[t := Put(bc1[t], ps, Trues(|ps|), Somes(vals), |ps|)], None)
  {
    var all := Trues(|ps|);
    var cleared := Put(bc1[t], ps, all, Nones(|ps|), |ps|);
    var bc2 := bc1[t := cleared];
    assert OtherTypes(bc2, t) == others;
    forall k | 0 <= k < |ps|
      ensures cleared[ps[k]].None?
    {
      assert Hit(ps, all, |ps|, ps[k]);
    }
    assert Unset(all, Held(bc2[t], ps)) == all;
    ClearedAtFixed(bc2, np, others, ps, all);
    FreeOnCleared(bc2, np, others, ps);
    assert all[0];
    PutTwice(bc1[t], ps, all, Nones(|ps|), Somes(vals));
  }


  /** `remove` then `add` is `overwrite` once the pores are parsed and the values broadcast. */
  lemma AppliedRemoveAdd<V>(bc: Arrays<V>, np: nat, ints: seq<int>, t: string, vals: seq<V>, force: bool)
    requires Shaped(bc, np) && t in bc && |vals| == |ints|
    ensures var o := Applied(bc, np, ints, t, vals, "remove", force);
      o.bc.Keys == bc.Keys &&
      (if o.error.Some? then o else Applied(o.bc, np, ints, t, vals, "add", force))
        == Applied(bc, np, ints, t, vals, "overwrite", force)
  {
    var pos := Positions(Indices(ints), np);
    var o := Applied(bc, np, ints, t, vals, "remove", force);
    if pos.Some? {
      var ps := pos.value;
      assert |ps| == |ints|;
      assert o == Removed(bc, np, ps, t, force);
      if force {
        RemoveAddForced(bc, np, ps, t, vals);
      } else {
        RemoveAddUnforced(bc, np, ps, t, vals);
      }
      assert Applied(o.bc, np, ints, t, vals, "add", force) == Added(o.bc, np, ps, t, vals, force);
      assert Applied(bc, np, ints, t, vals, "overwrite", force) == Overwritten(bc, np, ps, t, vals, force);
    } else {
      assert |ints| > 0;
      assert o == Outcome(bc, Some(IndexOutOfRange));
      assert Applied(bc, np, ints, t, vals, "overwrite", force) == o;
    }
  }

  /** A two-mode list is the first mode, then, unless it raised, the second. */
  lemma SetTwo<V>(bc: Arrays<V>, np: nat, nt: nat, pores: Option<Locations>, bctype: Option<string>,
                  values: seq<V>, m1: string, m2: string, force: bool)
    requires Shaped(bc, np)
    ensures var o := SetOne(bc, np, nt, pores, bctype, values, m1, force);
      SetBCOf(bc, np, nt, pores, bctype, values, List([m1, m2]), force)
        == if o.error.Some? then o else SetOne(o.bc, np, nt, pores, bctype, values, m2, force)
  {
    var o := SetOne(bc, np, nt, pores, bctype, values, m1, force);
    if o.error.None? {
      var o2 := SetOne(o.bc, np, nt, pores, bctype, values, m2, force);
      assert SetFrom(o.bc, np, nt, pores, bctype, values, [m1, m2], 1, force) == o2;
    }
  }

  /** An allowed mode on an existing type: the pores parsed, the values broadcast and checked,
      then the mode applied. */
  lemma SetOneAllowed<V>(bc: Arrays<V>, np: nat, nt: nat, pores: Option<Locations>, t: string,
                         values: seq<V>, mode: string, force: bool)
    requires Shaped(bc, np) && t in bc && mode in Modes
    ensures SetOne(bc, np, nt, pores, Some(t), values, mode, force) ==
      match ParsedIndices(pores, np, nt)
      case Err(e) => Outcome(bc, Some(e))
      case Ok(ints) =>
        var vals := if |values| == 1 then seq(|ints|, _ => values[0]) else values;
        if |vals| > 1 && |vals| != |ints| then Outcome(bc, Some(ValuesMismatch))
        else Applied(bc, np, ints, t, vals, mode, force)
  {
    ParsedModeSingle(mode, Modes);
  }

  /** Modes in a list are applied left to right, so `['remove', 'add']` does what `'overwrite'`
      does, for any pores, values and `force`, once the type exists and some value is given. */
  lemma RemoveAddIsOverwrite<V>(bc: Arrays<V>, np: nat, nt: nat, pores: Option<Locations>, t: string,
                                values: seq<V>, force: bool)
    requires Shaped(bc, np) && t in bc && |values| > 0
    ensures SetBCOf(bc, np, nt, pores, Some(t), values, List(["remove", "add"]), force)
         == SetBCOf(bc, np, nt, pores, Some(t), values, Str("overwrite"), force)
  {
    SetTwo(bc, np, nt, pores, Some(t), values, "remove", "add", force);
    SetOneAllowed(bc, np, nt, pores, t, values, "remove", force);
    SetOneAllowed(bc, np, nt, pores, t, values, "overwrite", force);
    var o := SetOne(bc, np, nt, pores, Some(t), values, "remove", force);
    match ParsedIndices(pores, np, nt)
    case Err(_) =>
    case Ok(ints) =>
      var vals := if |values| == 1 then seq(|ints|, _ => values[0]) else values;
      if !(|vals| > 1 && |vals| != |ints|) {
        AppliedRemoveAdd(bc, np, ints, t, vals, force);
        if o.error.None? {
          SetOneAllowed(o.bc, np, nt, pores, t, values, "add", force);
        }
      }
  }

  // ---------------------------------------------------------------------------
  // Errors, broadcasting and the one-type-per-pore rule across `set_BC`

  /** Applying a mode only ever raises an IndexError or a KeyError. */
  lemma AppliedRaises<V>(bc: Arrays<V>, np: nat, ints: seq<int>, t: string, vals: seq<V>, mode: string, force: bool)
    requires Shaped(bc, np)
    requires |vals| == |ints| || |vals| == 0
    ensures var r := Applied(bc, np, ints, t, vals, mode, force);
      r.error.Some? ==> r.error.value in {UnknownBCType, IndexOutOfRange, NoValues}
  {
    var pos := Positions(Indices(ints), np);
    if mode != "clear" && pos.Some? {
      if mode == "add" {
        if t in bc {
          AddedErrors(bc, np, pos.value, t, vals, force);
        }
      } else if mode == "overwrite" {
        OverwrittenErrors(bc, np, pos.value, t, vals, force);
      } else {
        RemovedErrors(bc, np, pos.value, t, force);
      }
    }
  }

  lemma AddedErrors<V>(bc: Arrays<V>, np: nat, ps: seq<nat>, t: string, vals: seq<V>, force: bool)
    requires Shaped(bc, np) && InRange(ps, np) && t in bc && (|vals| == |ps| || |vals| == 0)
    ensures var r := Added(bc, np, ps, t, vals, force);
      r.error.Some? ==> r.error.value == NoValues
  {
  }

  lemma OverwrittenErrors<V>(bc: Arrays<V>, np: nat, ps: seq<nat>, t: string, vals: seq<V>, force: bool)
    requires Shaped(bc, np) && InRange(ps, np) && (|vals| == |ps| || |vals| == 0)
    ensures var r := Overwritten(bc, np, ps, t, vals, force);
      r.error.Some? ==> r.error.value == NoValues || r.error.value == UnknownBCType
  {
  }

  lemma RemovedErrors<V>(bc: Arrays<V>, np: nat, ps: seq<nat>, t: string, force: bool)
    requires Shaped(bc, np) && InRange(ps, np)
    ensures var r := Removed(bc, np, ps, t, force);
      r.error.Some? ==> r.error.value == UnknownBCType
  {
  }

  /** A non-string `bctype` raises, and a mode outside the four raises exactly then (once the
      type is a string and some array exists); neither changes anything. */
  lemma SetOneRejects<V>(bc: Arrays<V>, np: nat, nt: nat, pores: Option<Locations>, bctype: Option<string>,
                         values: seq<V>, mode: string, force: bool)
    requires Shaped(bc, np)
    ensures var r := SetOne(bc, np, nt, pores, bctype, values, mode, force);
      bctype.None? ==> r == Outcome(bc, Some(NotAString))
    ensures var r := SetOne(bc, np, nt, pores, bctype, values, mode, force);
      bctype.Some? && |bc| > 0 ==> (r == Outcome(bc, Some(ModeNotAllowed)) <==> mode !in Modes)
  {
    ParsedModeAllowed(Str(mode), Some(Modes), true);
    if bctype.Some? && |bc| > 0 && mode in Modes {
      ParsedModeSingle(mode, Modes);
      match ParsedIndices(pores, np, nt)
      case Err(e) =>
        assert ParsedIndices(pores, np, nt).error == MaskLength;
      case Ok(ints) =>
        var vals := if |values| == 1 then seq(|ints|, _ => values[0]) else values;
        if !(|vals| > 1 && |vals| != |ints|) {
          AppliedRaises(bc, np, ints, bctype.value, vals, mode, force);
        }
    }
  }

  /** More than one value for a different number of pores raises and changes nothing. */
  lemma SetOneMismatch<V>(bc: Arrays<V>, np: nat, nt: nat, pores: Option<Locations>, t: string,
                          values: seq<V>, mode: string, force: bool)
    requires Shaped(bc, np) && |bc| > 0 && mode in Modes && ParsedIndices(pores, np, nt).Ok?
    requires |values| > 1 && |values| != |ParsedIndices(pores, np, nt).value|
    ensures SetOne(bc, np, nt, pores, Some(t), values, mode, force) == Outcome(bc, Some(ValuesMismatch))
  {
    ParsedModeSingle(mode, Modes);
  }

  /** Without `force`, a mode that raises has changed nothing. */
  lemma AppliedUnforcedError<V>(bc: Arrays<V>, np: nat, ints: seq<int>, t: string, vals: seq<V>, mode: string)
    requires Shaped(bc, np)
    requires |vals| == |ints| || |vals| == 0
    ensures var r := Applied(bc, np, ints, t, vals, mode, false);
      r.error.Some? ==> r.bc == bc
  {
  }

  /** Without `force`, a call that raises has changed nothing. */
  lemma SetOneUnforcedError<V>(bc: Arrays<V>, np: nat, nt: nat, pores: Option<Locations>, bctype: Option<string>,
                               values: seq<V>, mode: string)
    requires Shaped(bc, np)
    ensures var r := SetOne(bc, np, nt, pores, bctype, values, mode, false);
      r.error.Some? ==> r.bc == bc
  {
    if bctype.Some? && |bc| > 0 {
      match ParsedMode(Str(mode), Some(Modes), true)
      case Err(_) =>
      case Ok(m) =>
        match ParsedIndices(pores, np, nt)
        case Err(_) =>
        case Ok(ints) =>
          var vals := if |values| == 1 then seq(|ints|, _ => values[0]) else values;
          if !(|vals| > 1 && |vals| != |ints|) && m.One? {
            AppliedUnforcedError(bc, np, ints, bctype.value, vals, m.sole);
          }
    }
  }

  /** A single value is the same as that value once for every given pore. */
  lemma SetOneBroadcast<V>(bc: Arrays<V>, np: nat, nt: nat, pores: Option<Locations>, bctype: Option<string>,
                           v: V, mode: string, force: bool)
    requires Shaped(bc, np) && ParsedIndices(pores, np, nt).Ok?
    ensures var n := |ParsedIndices(pores, np, nt).value|;
      SetOne(bc, np, nt, pores, bctype, [v], mode, force)
        == SetOne(bc, np, nt, pores, bctype, seq(n, _ => v), mode, force)
  {
    var n := |ParsedIndices(pores, np, nt).value|;
    if n == 1 {
      assert seq(n, _ => v) == [v];
    }
  }

  lemma SetOneOneType<V>(bc: Arrays<V>, np: nat, nt: nat, pores: Option<Locations>, bctype: Option<string>,
                         values: seq<V>, mode: string, force: bool)
    requires Shaped(bc, np) && OneTypePerPore(bc, np)
    ensures OneTypePerPore(SetOne(bc, np, nt, pores, bctype, values, mode, force).bc, np)
  {
    if bctype.Some? && |bc| > 0 {
      match ParsedMode(Str(mode), Some(Modes), true)
      case Err(_) =>
      case Ok(m) =>
        match ParsedIndices(pores, np, nt)
        case Err(_) =>
        case Ok(ints) =>
          var vals := if |values| == 1 then seq(|ints|, _ => values[0]) else values;
          if !(|vals| > 1 && |vals| != |ints|) && m.One? {
            AppliedOneType(bc, np, ints, bctype.value, vals, m.sole, force);
          }
    }
  }

  /** However many modes a list holds, at most one type holds a value at any pore afterwards. */
  lemma {:induction false} SetFromOneType<V>(bc: Arrays<V>, np: nat, nt: nat, pores: Option<Locations>,
                                             bctype: Option<string>, values: seq<V>, modes: seq<string>,
                                             i: nat, force: bool)
    requires Shaped(bc, np) && OneTypePerPore(bc, np)
    ensures OneTypePerPore(SetFrom(bc, np, nt, pores, bctype, values, modes, i, force).bc, np)
    decreases |modes| - i
  {
    if i < |modes| {
      var o := SetOne(bc, np, nt, pores, bctype, values, modes[i], force);
      SetOneOneType(bc, np, nt, pores, bctype, values, modes[i], force);
      if o.error.None? {
        SetFromOneType(o.bc, np, nt, pores, bctype, values, modes, i + 1, force);
      }
    }
  }

  /** `set_BC` keeps at most one type per pore, whatever it is given. */
  lemma SetBCOneType<V>(bc: Arrays<V>, np: nat, nt: nat, pores: Option<Locations>, bctype: Option<string>,
                        values: seq<V>, mode: Names, force: bool)
    requires Shaped(bc, np) && OneTypePerPore(bc, np)
    ensures OneTypePerPore(SetBCOf(bc, np, nt, pores, bctype, values, mode, force).bc, np)
  {
    match mode
    case Str(s) => SetOneOneType(bc, np, nt, pores, bctype, values, s, force);
    case List(items) => SetFromOneType(bc, np, nt, pores, bctype, values, items, 0, force);
  }

  // ---------------------------------------------------------------------------
  // The algorithm object

  /** `arr[pores[mask]] = vals[mask]`, one position at a time. */
  method PutInto<V>(arr: seq<Option<V>>, ps: seq<nat>, mask: seq<bool>, vals: seq<Option<V>>)
    returns (r: seq<Option<V>>)
    requires |mask| == |ps| && |vals| == |ps| && InRange(ps, |arr|)
    ensures r == Put(arr, ps, mask, vals, |ps|)
  {
    r := arr;
    for k := 0 to |ps|
      invariant r == Put(arr, ps, mask, vals, k)
    {
      PutStep(arr, ps, mask, vals, k);
      if mask[k] {
        r := r[ps[k] := vals[k]];
      }
    }
  }

  /** Clearing one more type extends the clearing of the others. */
  lemma ClearedAtStep<V>(bc: Arrays<V>, np: nat, done: set<string>, u: string, ps: seq<nat>, mask: seq<bool>)
    requires Shaped(bc, np) && InRange(ps, np) && |mask| == |ps| && u in bc && u !in done
    ensures ClearedAt(bc, np, done + {u}, ps, mask)
      == ClearedAt(bc, np, done, ps, mask)[u := Put(bc[u], ps, mask, Nones(|ps|), |ps|)]
  {
  }

  /** Checking one more type for values extends the check of the others. */
  lemma FreeStep<V>(bc: Arrays<V>, np: nat, done: set<string>, u: string, ps: seq<nat>, mask: seq<bool>)
    requires Shaped(bc, np) && InRange(ps, np) && |mask| == |ps|
    ensures u in bc ==> Free(bc, np, done + {u}, ps, mask) == Unset(Free(bc, np, done, ps, mask), Held(bc[u], ps))
    ensures u !in bc ==> Free(bc, np, done + {u}, ps, mask) == Free(bc, np, done, ps, mask)
  {
    var a := Free(bc, np, done + {u}, ps, mask);
    var b := Free(bc, np, done, ps, mask);
    forall k | 0 <= k < |ps|
      ensures HeldBy(bc, np, done + {u}, ps[k]) <==> HeldBy(bc, np, done, ps[k]) || (u in bc && bc[u][ps[k]].Some?)
    {
      if HeldBy(bc, np, done + {u}, ps[k]) {
        var w :| w in done + {u} && w in bc && bc[w][ps[k]].Some?;
        if w != u {
          assert w in done;
        }
      }
    }
  }

  /** The arrays with every type outside `todo` set to no value. */
  function Clearing<V>(bc: Arrays<V>, np: nat, todo: set<string>): (r: Arrays<V>)
    ensures r.Keys == bc.Keys
  {
    map u | u in bc :: if u in todo then bc[u] else Nones(np)
  }

  /** How `Clearing` moves as types are cleared one by one, where it starts and where it ends. */
  lemma ClearingStep<V>(bc: Arrays<V>, np: nat, todo: set<string>, rest: set<string>, u: string)
    ensures rest == todo - {u} && u in todo && u in bc ==>
      Clearing(bc, np, todo)[u := Nones(np)] == Clearing(bc, np, rest)
    ensures todo == bc.Keys - {u} && u in bc && bc[u] == Nones(np) ==> Clearing(bc, np, todo) == bc
    ensures todo == {} ==> Clearing(bc, np, todo) == map w | w in bc :: Nones(np)
  {
  }

  /** An algorithm's boundary-condition arrays `pore.bc.<type>`, one entry per pore, and
      `set_BC`, which edits them. */
  class Algorithm<V(==)> {
    const np: nat
    const nt: nat
    var bc: Arrays<V>

    ghost predicate Valid()
      reads this
    {
      Shaped(bc, np) && OneTypePerPore(bc, np)
    }

    /** An algorithm over np pores and nt throats whose types hold no value anywhere. */
    constructor(np: nat, nt: nat, types: set<string>)
      ensures Valid() && this.np == np && this.nt == nt
      ensures bc.Keys == types && forall t | t in types :: bc[t] == Nones(np)
    {
      this.np := np;
      this.nt := nt;
      bc := map t | t in types :: Nones(np);
    }

    /** `for item in types: self[f"pore.bc.{item}"][pores[mask]] = no_bc`. */
    method ClearTypes(types: set<string>, ps: seq<nat>, mask: seq<bool>)
      requires Shaped(bc, np) && InRange(ps, np) && |mask| == |ps|
      modifies this
      ensures bc == ClearedAt(old(bc), np, types, ps, mask)
    {
      ghost var bc0 := bc;
      var todo := types;
      while todo != {}
        invariant todo <= types
        invariant Shaped(bc0, np) && bc == ClearedAt(bc0, np, types - todo, ps, mask)
        decreases |todo|
      {
        var u :| u in todo;
        if u in bc {
          ClearedAtStep(bc0, np, types - todo, u, ps, mask);
          var cleared := PutInto(bc[u], ps, mask, Nones(|ps|));
          bc := bc[u := cleared];
        }
        assert types - (todo - {u}) == (types - todo) + {u};
        todo := todo - {u};
      }
      assert types - todo == types;
    }

    /** `for item in types: mask[isfinite(self[f"pore.bc.{item}"][pores])] = False`. */
    method FreeOf(types: set<string>, ps: seq<nat>, mask0: seq<bool>) returns (mask: seq<bool>)
      requires Shaped(bc, np) && InRange(ps, np) && |mask0| == |ps|
      ensures mask == Free(bc, np, types, ps, mask0)
    {
      mask := mask0;
      assert mask0 == Free(bc, np, {}, ps, mask0);
      var todo := types;
      while todo != {}
        invariant todo <= types
        invariant mask == Free(bc, np, types - todo, ps, mask0)
        decreases |todo|
      {
        var u :| u in todo;
        FreeStep(bc, np, types - todo, u, ps, mask0);
        if u in bc {
          mask := Unset(mask, Held(bc[u], ps));
        }
        assert types - (todo - {u}) == (types - todo) + {u};
        todo := todo - {u};
      }
      assert types - todo == types;
    }

    /** `mode='add'` at in-range pores. */
    method Add(ps: seq<nat>, t: string, vals: seq<V>, force: bool) returns (err: Option<Error>)
      requires Shaped(bc, np) && InRange(ps, np) && t in bc && (|vals| == |ps| || |vals| == 0)
      modifies this
      ensures Outcome(bc, err) == Added(old(bc), np, ps, t, vals, force)
    {
      var others := OtherTypes(bc, t);
      var mask := Unset(Trues(|ps|), Held(bc[t], ps));
      if force {
        ClearTypes(others, ps, mask);
      }
      mask := FreeOf(others, ps, mask);
      if !AnySet(mask) {
        err := None;
      } else if |vals| == 0 {
        err := Some(NoValues);
      } else {
        var w := PutInto(bc[t], ps, mask, Somes(vals));
        bc := bc[t := w];
        err := None;
      }
    }

    /** `mode='overwrite'` at in-range pores. */
    method Overwrite(ps: seq<nat>, t: string, vals: seq<V>, force: bool) returns (err: Option<Error>)
      requires Shaped(bc, np) && InRange(ps, np) && (|vals| == |ps| || |vals| == 0)
      modifies this
      ensures Outcome(bc, err) == Overwritten(old(bc), np, ps, t, vals, force)
    {
      var others := OtherTypes(bc, t);
      var mask := Trues(|ps|);
      if force {
        ClearTypes(others, ps, mask);
      }
      mask := FreeOf(others, ps, mask);
      if !AnySet(mask) {
        err := None;
      } else if |vals| == 0 {
        err := Some(NoValues);
      } else if t !in bc {
        err := Some(UnknownBCType);
      } else {
        var w := PutInto(bc[t], ps, mask, Somes(vals));
        bc := bc[t := w];
        err := None;
      }
    }

    /** `mode='remove'` at in-range pores. */
    method Remove(ps: seq<nat>, t: string, force: bool) returns (err: Option<Error>)
      requires Shaped(bc, np) && InRange(ps, np)
      modifies this
      ensures Outcome(bc, err) == Removed(old(bc), np, ps, t, force)
    {
      var others := OtherTypes(bc, t);
      var mask := Trues(|ps|);
      if force {
        ClearTypes(others, ps, mask);
      }
      mask := FreeOf(others, ps, mask);
      if !AnySet(mask) {
        err := None;
      } else if t !in bc {
        err := Some(UnknownBCType);
      } else {
        var w := PutInto(bc[t], ps, mask, Nones(|ps|));
        bc := bc[t := w];
        err := None;
      }
    }

    /** `mode='clear'`: t, and with `force` every other type, set to no value everywhere. */
    method Clear(t: string, force: bool)
      requires Shaped(bc, np)
      modifies this
      ensures bc == ClearedAll(old(bc), np, t, force)
    {
      bc := bc[t := Nones(np)];
      if force {
        ClearOthers(t);
      }
    }

    /** `for item in other_types: self[f"pore.bc.{item}"] = np.nan`, once t holds no value. */
    method ClearOthers(t: string)
      requires t in bc && bc[t] == Nones(np)
      modifies this
      ensures bc == map u | u in old(bc) :: Nones(np)
    {
      ghost var bc1 := bc;
      var todo := OtherTypes(bc, t);
      ClearingStep(bc1, np, todo, todo, t);
      while todo != {}
        invariant todo <= bc1.Keys && t !in todo
        invariant bc == Clearing(bc1, np, todo)
        decreases |todo|
      {
        var u :| u in todo;
        ClearingStep(bc1, np, todo, todo - {u}, u);
        bc := bc[u := Nones(np)];
        todo := todo - {u};
      }
      ClearingStep(bc1, np, {}, {}, t);
    }

    /** One mode at the parsed pores, with the values already broadcast. */
    method Apply(ints: seq<int>, t: string, vals: seq<V>, mode: string, force: bool) returns (err: Option<Error>)
      requires Shaped(bc, np) && (|vals| == |ints| || |vals| == 0)
      modifies this
      ensures Outcome(bc, err) == Applied(old(bc), np, ints, t, vals, mode, force)
    {
      var others := OtherTypes(bc, t);
      var pos := Positions(Indices(ints), np);
      if mode == "clear" {
        Clear(t, force);
        err := None;
      } else if mode == "add" {
        if t !in bc {
          err := Some(UnknownBCType);
        } else if pos.None? {
          err := Some(IndexOutOfRange);
        } else {
          err := Add(pos.value, t, vals, force);
        }
      } else if mode == "overwrite" {
        if pos.Some? {
          err := Overwrite(pos.value, t, vals, force);
        } else if others != {} {
          err := Some(IndexOutOfRange);
        } else if |vals| == 0 {
          err := Some(NoValues);
        } else if t !in bc {
          err := Some(UnknownBCType);
        } else {
          err := Some(IndexOutOfRange);
        }
      } else {
        if pos.Some? {
          err := Remove(pos.value, t, force);
        } else if others != {} || t in bc {
          err := Some(IndexOutOfRange);
        } else {
          err := Some(UnknownBCType);
        }
      }
    }

    /** `set_BC` for a single mode string. */
    method SetMode(pores: Option<Locations>, bctype: Option<string>, values: seq<V>, mode: string, force: bool)
      returns (err: Option<Error>)
      requires Shaped(bc, np)
      modifies this
      ensures Outcome(bc, err) == SetOne(old(bc), np, nt, pores, bctype, values, mode, force)
    {
      if bctype.None? {
        return Some(NotAString);
      }
      if |bc| == 0 {
        return Some(NoBCArrays);
      }
      var m := ParseMode(Str(mode), Some(Modes), true);
      if m.Err? {
        return Some(m.error);
      }
      var parsed := ParsedIndices(pores, np, nt);
      if parsed.Err? {
        return Some(parsed.error);
      }
      var ints := parsed.value;
      var vals := if |values| == 1 then seq(|ints|, _ => values[0]) else values;
      if |vals| > 1 && |vals| != |ints| {
        return Some(ValuesMismatch);
      }
      if m.value.Many? {
        return Some(MultipleModes);
      }
      err := Apply(ints, bctype.value, vals, m.value.sole, force);
    }

    /** `set_BC(pores, bctype, bcvalues, mode, force)`: a list of modes is applied in order and
        stops at the first that raises. At most one type holds a value at any pore before and
        after. */
    method SetBC(pores: Option<Locations>, bctype: Option<string>, values: seq<V>, mode: Names, force: bool)
      returns (err: Option<Error>)
      requires Valid()
      modifies this
      ensures Valid()
      ensures Outcome(bc, err) == SetBCOf(old(bc), np, nt, pores, bctype, values, mode, force)
    {
      SetBCOneType(bc, np, nt, pores, bctype, values, mode, force);
      match mode
      case Str(s) =>
        err := SetMode(pores, bctype, values, s, force);
      case List(items) =>
        ghost var whole := SetFrom(bc, np, nt, pores, bctype, values, items, 0, force);
        err := None;
        var i := 0;
        while i < |items|
          invariant 0 <= i <= |items| && Shaped(bc, np) && err.None?
          invariant whole == SetFrom(bc, np, nt, pores, bctype, values, items, i, force)
          decreases |items| - i
        {
          ghost var prev := bc;
          err := SetMode(pores, bctype, values, items[i], force);
          assert whole == SetFrom(prev, np, nt, pores, bctype, values, items, i, force);
          if err.Some? {
            return;
          }
          i := i + 1;
        }
    }
  }
}
