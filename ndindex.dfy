/** How numpy addresses the entries of a one-dimensional array: by a list of
    integer positions (negative ones count from the end) or by a boolean mask
    of the array's own length. Anything else raises IndexError. */
module NdIndex {
  import opened Wrappers

  /** The argument of an indexing expression `a[loc]`. */
  datatype Locations = Indices(ints: seq<int>) | Mask(bits: seq<bool>)

  /** Integer index i into an axis of length n, or None when it is out of range. */
  function Normalize(i: int, n: nat): (r: Option<nat>)
    ensures r.Some? <==> -(n as int) <= i < n
    ensures r.Some? ==> r.value < n && (r.value == i || r.value == i + n)
  {
    if 0 <= i < n then Some(i) else if -(n as int) <= i < 0 then Some(i + n) else None
  }

  /** A position and its negative alias address the same entry. */
  lemma NormalizeAlias(k: nat, n: nat)
    requires k < n
    ensures Normalize(k, n) == Some(k) && Normalize(k - n, n) == Some(k)
  {
  }

  /** The positions (in increasing order) where a mask is True: `np.arange(len(bits))[bits]`. */
  function TrueIndices(bits: seq<bool>): (r: seq<nat>)
    ensures forall p: nat :: p in r <==> p < |bits| && bits[p]
    ensures forall i, j :: 0 <= i < j < |r| ==> r[i] < r[j]
    ensures forall i :: 0 <= i < |r| ==> r[i] < |bits|
  {
    if |bits| == 0 then []
    else
      var n := |bits| - 1;
      TrueIndices(bits[..n]) + (if bits[n] then [n] else [])
  }

  /** Every integer index normalised, or None when any of them is out of range. */
  function NormalizeAll(ints: seq<int>, n: nat): (r: Option<seq<nat>>)
    ensures r.Some? <==> forall k :: 0 <= k < |ints| ==> -(n as int) <= ints[k] < n
    ensures r.Some? ==> |r.value| == |ints|
    ensures r.Some? ==> forall k :: 0 <= k < |ints| ==> Normalize(ints[k], n) == Some(r.value[k])
  {
    if |ints| == 0 then Some([])
    else
      var last := |ints| - 1;
      match (NormalizeAll(ints[..last], n), Normalize(ints[last], n))
      case (Some(front), Some(p)) => Some(front + [p])
      case _ => None
  }

  /** The entries `a[loc]` addresses in an array of length n, in order; None
      where numpy raises IndexError (an index out of range, a mask of another length). */
  function Positions(loc: Locations, n: nat): (r: Option<seq<nat>>)
    ensures r.Some? <==> match loc
      case Indices(ints) => forall k :: 0 <= k < |ints| ==> -(n as int) <= ints[k] < n
      case Mask(bits) => |bits| == n
    ensures r.Some? ==> forall k :: 0 <= k < |r.value| ==> r.value[k] < n
    ensures r.Some? && loc.Mask? ==> forall p: nat :: p in r.value <==> p < n && loc.bits[p]
  {
    match loc
    case Indices(ints) => NormalizeAll(ints, n)
    case Mask(bits) => if |bits| == n then Some(TrueIndices(bits)) else None
  }
}
