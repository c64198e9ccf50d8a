/** The dictionary of pore and throat arrays every OpenPNM object is built on:
    the checks `__setitem__` applies before it stores an array, the element
    counts, and the conversions between index lists and boolean masks. Arrays
    are one-dimensional; the object belongs to no project, so the keys checked
    for nesting conflicts are the object's own. */
module CoreBase {
  import opened Wrappers
  import opened NdIndex
  import opened PyStr
  import opened Parsing

  /** One entry of a stored array. */
  datatype Scalar = Bool(b: bool) | Int(i: int) | Real(r: real)

  /** What may be assigned to a key: None, an array (a scalar is an array of length one, as
      `np.array(value, ndmin=1)` makes it) or a dict of further values. */
  datatype Value = Null | Array(items: seq<Scalar>) | Dict(entries: seq<(string, Value)>)

  type Data = map<string, seq<Scalar>>

  /** The two arrays that fix the pore and throat counts are present. */
  predicate HasAll(data: Data)
  {
    "pore.all" in data && "throat.all" in data
  }

  /** `_count(e)` for an element: the length of `e + '.all'`. */
  function CountIn(data: Data, e: string): nat
    requires HasAll(data) && IsElement(e)
  {
    if e == "pore" then |data["pore.all"]| else |data["throat.all"]|
  }

  /** A key with more than one '.', such as 'pore.a.b'. */
  predicate IsLong(key: string)
  {
    Count(key, '.') > 1
  }

  /** Some long key of the dictionary starts with `key`. */
  predicate LongKeyUnder(data: Data, key: string)
  {
    exists k | k in data.Keys :: IsLong(k) && StartsWith(k, key)
  }

  /** No long key sits beside the key of its first two parts: 'pore.a.b' and 'pore.a' are never
      both present. */
  ghost predicate Unnested(data: Data)
  {
    forall k | k in data && IsLong(k) :: Root(k, '.') !in data
  }

  /** The keys stored without any check of their length. */
  predicate IsGeometry(key: string)
  {
    key == "pore.coords" || key == "throat.conns"
  }

  /** The second dotted part of a key that has one. */
  function Property(key: string): string
    requires Count(key, '.') > 0
  {
    SplitCount(key, '.');
    Split(key, '.')[1]
  }

  /** `__setitem__(key, arr)` for an array: the new dictionary, or what it raises. When `key`
      is an existing non-empty '*.all' array the dictionary is returned unchanged (the source
      only warns). */
  function Stored(data: Data, key: string, arr: seq<Scalar>): (r: Result<Data, Error>)
    requires HasAll(data)
    ensures r.Ok? ==> HasAll(r.value) && key in r.value
    ensures r.Ok? ==> forall k :: k != key ==> (k in r.value <==> k in data)
    ensures r.Ok? ==> forall k | k in data && k != key :: r.value[k] == data[k]
  {
    var element := Head(key, '.');
    if !IsElement(element) then Err(NotPoreOrThroat)
    else if IsLong(key) && Root(key, '.') in data then Err(NesterExists)
    else if Count(key, '.') == 1 && LongKeyUnder(data, key) then Err(NestedExists)
    else Written(data, key, arr)
  }

  /** `__setitem__` for an array once the element and nesting checks have passed: it can only
      fail for a key without a property or for an array of the wrong length. */
  function Written(data: Data, key: string, arr: seq<Scalar>): (r: Result<Data, Error>)
    requires HasAll(data) && IsElement(Head(key, '.'))
    ensures r.Ok? ==> HasAll(r.value) && key in r.value
    ensures r.Ok? ==> forall k :: k != key ==> (k in r.value <==> k in data)
    ensures r.Ok? ==> forall k | k in data && k != key :: r.value[k] == data[k]
    ensures r.Err? ==> r.error == NoProperty || r.error == WrongLength
  {
    if IsGeometry(key) then Ok(data[key := arr])
    else if Count(key, '.') == 0 then Err(NoProperty)
    else if Property(key) == "all" then
      if key in data && |data[key]| > 0 then Ok(data) else Ok(data[key := arr])
    else
      Resized(data, key, arr, CountIn(data, Head(key, '.')))
  }

  /** The length rule of `__setitem__` for an array under a key whose element counts n items. */
  function Resized(data: Data, key: string, arr: seq<Scalar>, n: nat): Result<Data, Error>
  {
    if |arr| == 1 then Ok(data[key := seq(n, _ => arr[0])])
    else if |arr| == n || n == 0 then Ok(data[key := arr])
    else Err(WrongLength)
  }

  /** The name a dict entry is stored under: `item` without its 'pore.' and 'throat.' pieces. */
  function EntryName(key: string, item: string): string
  {
    key + "." + Replace(Replace(item, "pore.", ""), "throat.", "")
  }

  /** The dictionary after an assignment, and the error that stopped it, if any. */
  datatype Outcome = Outcome(data: Data, error: Option<Error>)

  /** `__setitem__(key, value)` for any value: None changes nothing, a dict is assigned entry
      by entry under `EntryName`, and an error stops the entries after it (those before it
      stay written). */
  function Assigned(data: Data, key: string, value: Value): (r: Outcome)
    requires HasAll(data)
    ensures HasAll(r.data)
    decreases value, 1, 0
  {
    match value
    case Null => Outcome(data, None)
    case Array(items) =>
      (match Stored(data, key, items)
       case Ok(d) => Outcome(d, None)
       case Err(e) => Outcome(data, Some(e)))
    case Dict(entries) => AssignedFrom(data, key, entries, 0)
  }

  /** The entries of a dict from position i on. */
  function AssignedFrom(data: Data, key: string, entries: seq<(string, Value)>, i: nat): (r: Outcome)
    requires HasAll(data)
    ensures HasAll(r.data)
    decreases Dict(entries), 0, |entries| - i
  {
    if i >= |entries| then Outcome(data, None)
    else
      assert entries[i] in entries;
      var o := Assigned(data, EntryName(key, entries[i].0), entries[i].1);
      if o.error.Some? then o else AssignedFrom(o.data, key, entries, i + 1)
  }

  // ---------------------------------------------------------------------------
  // What `__setitem__` promises

  /** Every key of a successful assignment starts with 'pore.' or 'throat.'. */
  lemma StoredNames(data: Data, key: string, arr: seq<Scalar>)
    requires HasAll(data)
    ensures Stored(data, key, arr).Ok? ==> StartsWith(key, "pore.") || StartsWith(key, "throat.")
    ensures !IsElement(Head(key, '.')) ==> Stored(data, key, arr) == Err(NotPoreOrThroat)
  {
    if Stored(data, key, arr).Ok? {
      StoredOkShape(data, key, arr);
      HeadPrefix(key, '.');
      PoreDot();
      ThroatDot();
    }
  }

  /** A successful assignment names an element and holds a '.'. */
  lemma StoredOkShape(data: Data, key: string, arr: seq<Scalar>)
    requires HasAll(data) && Stored(data, key, arr).Ok?
    ensures IsElement(Head(key, '.')) && '.' in key
  {
    if IsGeometry(key) {
      GeometryDotted(key);
    }
  }

  lemma GeometryDotted(key: string)
    requires IsGeometry(key)
    ensures '.' in key
  {
    if key == "pore.coords" { CoordsDotted(); } else { ConnsDotted(); }
  }

  lemma CoordsDotted()
    ensures '.' in "pore.coords"
  {
    assert "pore.coords"[4] == '.';
  }

  lemma ConnsDotted()
    ensures '.' in "throat.conns"
  {
    assert "throat.conns"[6] == '.';
  }

  lemma PoreDot()
    ensures "pore" + ['.'] == "pore."
  {
  }

  lemma ThroatDot()
    ensures "throat" + ['.'] == "throat."
  {
  }

  /** 'pore.a.b' raises exactly when 'pore.a' is a key; 'pore.a' raises exactly when some long
      key starts with it, which includes keys such as 'pore.ab.c' that do not nest under it. */
  lemma StoredNesting(data: Data, key: string, arr: seq<Scalar>)
    requires HasAll(data) && IsElement(Head(key, '.'))
    ensures IsLong(key) ==> (Stored(data, key, arr) == Err(NesterExists) <==> Root(key, '.') in data)
    ensures Count(key, '.') == 1 ==> (Stored(data, key, arr) == Err(NestedExists) <==> LongKeyUnder(data, key))
  {
  }

  /** A key that only shares a prefix with a long key is refused all the same. */
  lemma StoredPrefixClash(data: Data, x: Scalar)
    requires HasAll(data) && "pore.ab.c" in data
    ensures Stored(data, "pore.a", [x]) == Err(NestedExists)
  {
    PrefixClashKeys();
    assert LongKeyUnder(data, "pore.a");
    StoredNesting(data, "pore.a", [x]);
  }

  lemma PrefixClashKeys()
    ensures Head("pore.a", '.') == "pore" && Count("pore.a", '.') == 1
    ensures IsLong("pore.ab.c") && StartsWith("pore.ab.c", "pore.a")
  {
    ShortKeyHead();
    ShortKeyCount();
    LongKeyCount();
    LongKeyPrefix();
  }

  // One string literal per lemma keeps these proofs small.

  lemma ShortKeyHead()
    ensures Head("pore.a", '.') == "pore"
  {
    assert "pore.a" == "pore" + ['.'] + "a";
    HeadOfJoined("pore", "a", '.');
  }

  lemma ShortKeyCount()
    ensures Count("pore.a", '.') == 1
  {
    assert "pore.a" == "pore" + ['.'] + "a";
    CountPair("pore", "a", '.');
  }

  lemma LongKeyCount()
    ensures IsLong("pore.ab.c")
  {
    assert "pore.ab.c" == "pore.ab" + ['.'] + "c";
    CountJoined("pore.ab", "c", '.');
    LongKeyRootCount();
  }

  lemma LongKeyRootCount()
    ensures Count("pore.ab", '.') == 1
  {
    assert "pore.ab" == "pore" + ['.'] + "ab";
    CountPair("pore", "ab", '.');
  }

  lemma LongKeyPrefix()
    ensures StartsWith("pore.ab.c", "pore.a")
  {
    assert "pore.ab.c" == "pore.a" + "b.c";
    StartsWithJoined("pore.a", "b.c");
  }

  /** Assignments keep the dictionary free of nesting conflicts. */
  lemma StoredUnnested(data: Data, key: string, arr: seq<Scalar>)
    requires HasAll(data) && Unnested(data)
    ensures Stored(data, key, arr).Ok? ==> Unnested(Stored(data, key, arr).value)
  {
    var r := Stored(data, key, arr);
    if r.Ok? && r.value != data {
      var d := r.value;
      forall k | k in d && IsLong(k)
        ensures Root(k, '.') !in d
      {
        RootOfLong(k, '.');
        if k == key {
          assert Root(key, '.') !in data;
        } else {
          assert k in data;
          if IsLong(key) {
            RootOfLong(key, '.');
          } else {
            assert Root(k, '.') != key by {
              if Root(k, '.') == key {
                assert StartsWith(k, key);
                assert LongKeyUnder(data, key);
              }
            }
          }
        }
      }
    }
  }

  /** A value of length one fills the whole array (`_count(element)` entries); any other
      length must equal the count unless the count is zero, and otherwise raises. */
  lemma StoredLength(data: Data, key: string, arr: seq<Scalar>)
    requires HasAll(data) && IsElement(Head(key, '.'))
    requires !IsLong(key) || Root(key, '.') !in data
    requires Count(key, '.') > 0 && (Count(key, '.') != 1 || !LongKeyUnder(data, key))
    requires !IsGeometry(key) && Property(key) != "all"
    ensures var n := CountIn(data, Head(key, '.'));
      var r := Stored(data, key, arr);
      && (|arr| == 1 ==> r.Ok? && |r.value[key]| == n && forall i | 0 <= i < n :: r.value[key][i] == arr[0])
      && (|arr| != 1 ==> (r.Ok? <==> |arr| == n || n == 0))
      && (|arr| != 1 && r.Ok? ==> r.value[key] == arr)
  {
    StoredIsWritten(data, key, arr);
    WrittenIsResized(data, key, arr);
    ResizedLength(data, key, arr, CountIn(data, Head(key, '.')));
  }

  lemma StoredIsWritten(data: Data, key: string, arr: seq<Scalar>)
    requires HasAll(data) && IsElement(Head(key, '.'))
    requires !IsLong(key) || Root(key, '.') !in data
    requires Count(key, '.') != 1 || !LongKeyUnder(data, key)
    ensures Stored(data, key, arr) == Written(data, key, arr)
  {
  }

  lemma WrittenIsResized(data: Data, key: string, arr: seq<Scalar>)
    requires HasAll(data) && IsElement(Head(key, '.'))
    requires Count(key, '.') > 0 && !IsGeometry(key) && Property(key) != "all"
    ensures Written(data, key, arr) == Resized(data, key, arr, CountIn(data, Head(key, '.')))
  {
  }

  lemma ResizedLength(data: Data, key: string, arr: seq<Scalar>, n: nat)
    ensures var r := Resized(data, key, arr, n);
      && (|arr| == 1 ==> r.Ok? && |r.value[key]| == n && forall i | 0 <= i < n :: r.value[key][i] == arr[0])
      && (|arr| != 1 ==> (r.Ok? <==> |arr| == n || n == 0))
      && (|arr| != 1 && r.Ok? ==> r.value[key] == arr)
  {
  }

  /** An existing non-empty '*.all' array is never replaced: the assignment either raises or
      leaves the dictionary as it was. */
  lemma StoredKeepsAll(data: Data, key: string, arr: seq<Scalar>)
    requires HasAll(data)
    requires Count(key, '.') > 0 && Property(key) == "all" && !IsGeometry(key)
    requires key in data && |data[key]| > 0
    ensures Stored(data, key, arr).Ok? ==> Stored(data, key, arr).value == data
  {
  }

  /** Every key an assignment changes or adds starts with the key assigned to. */
  lemma {:induction false} AssignedUnder(data: Data, key: string, value: Value)
    requires HasAll(data)
    ensures var r := Assigned(data, key, value);
      forall k | k in r.data && (k !in data || r.data[k] != data[k]) :: StartsWith(k, key)
    decreases value, 1, 0
  {
    match value
    case Null =>
    case Array(items) =>
    case Dict(entries) => AssignedFromUnder(data, key, entries, 0);
  }

  lemma {:induction false} AssignedFromUnder(data: Data, key: string, entries: seq<(string, Value)>, i: nat)
    requires HasAll(data)
    ensures var r := AssignedFrom(data, key, entries, i);
      forall k | k in r.data && (k !in data || r.data[k] != data[k]) :: StartsWith(k, key)
    decreases Dict(entries), 0, |entries| - i
  {
    if i < |entries| {
      assert entries[i] in entries;
      var sub := EntryName(key, entries[i].0);
      var o := Assigned(data, sub, entries[i].1);
      AssignedUnder(data, sub, entries[i].1);
      assert StartsWith(sub, key);
      forall k | StartsWith(k, sub)
        ensures StartsWith(k, key)
      {
        assert k[..|key|] == sub[..|key|];
      }
      if o.error.None? {
        AssignedFromUnder(o.data, key, entries, i + 1);
      }
    }
  }

  /** Assignments of any value keep the dictionary free of nesting conflicts. */
  lemma {:induction false} AssignedUnnested(data: Data, key: string, value: Value)
    requires HasAll(data) && Unnested(data)
    ensures Unnested(Assigned(data, key, value).data)
    decreases value, 1, 0
  {
    match value
    case Null =>
    case Array(items) => StoredUnnested(data, key, items);
    case Dict(entries) => AssignedFromUnnested(data, key, entries, 0);
  }

  lemma {:induction false} AssignedFromUnnested(data: Data, key: string, entries: seq<(string, Value)>, i: nat)
    requires HasAll(data) && Unnested(data)
    ensures Unnested(AssignedFrom(data, key, entries, i).data)
    decreases Dict(entries), 0, |entries| - i
  {
    if i < |entries| {
      assert entries[i] in entries;
      var o := Assigned(data, EntryName(key, entries[i].0), entries[i].1);
      AssignedUnnested(data, EntryName(key, entries[i].0), entries[i].1);
      if o.error.None? {
        AssignedFromUnnested(o.data, key, entries, i + 1);
      }
    }
  }

  // ---------------------------------------------------------------------------
  // `_tomask`

  /** A mask of length n that is True exactly at the positions ps. */
  function MaskOf(ps: seq<nat>, n: nat): (m: seq<bool>)
    ensures |m| == n && forall p :: 0 <= p < n ==> (m[p] <==> p in ps)
  {
    seq(n, p requires 0 <= p < n => p in ps)
  }

  /** A mask is the mask of its own True positions. */
  lemma MaskOfTrueIndices(bits: seq<bool>)
    ensures MaskOf(TrueIndices(bits), |bits|) == bits
  {
  }

  /** The True positions of a mask of in-range positions are those positions and no others. */
  lemma TrueIndicesOfMask(ps: seq<nat>, n: nat)
    requires forall k :: 0 <= k < |ps| ==> ps[k] < n
    ensures forall p: nat :: p in TrueIndices(MaskOf(ps, n)) <==> p in ps
  {
  }

  /** What `_tomask(indices, element)` returns or raises on the dictionary `data`. */
  function Tomasked(data: Data, indices: Option<Locations>, element: Option<Names>)
    : (r: Result<seq<bool>, Error>)
    requires HasAll(data)
  {
    match ParsedElement(element, true)
    case Err(e) => Err(e)
    case Ok(Many(_)) => Err(BothElements)
    case Ok(One(e)) =>
      match ParsedIndices(indices, |data["pore.all"]|, |data["throat.all"]|)
      case Err(err) => Err(err)
      case Ok(ind) =>
        ParsedElementNames(element, true);
        var n := CountIn(data, e);
        match Positions(Indices(ind), n)
        case None => Err(IndexOutOfRange)
        case Some(ps) => Ok(MaskOf(ps, n))
  }

  /** The mask has one entry per pore or throat and is True exactly at the given indices (a
      negative index counting from the end); an index out of range raises. */
  lemma TomaskedTrue(data: Data, ints: seq<int>, e: string)
    requires HasAll(data) && IsElement(e)
    ensures var n := CountIn(data, e);
      var r := Tomasked(data, Some(Indices(ints)), Some(Str(e)));
      && (r.Ok? <==> forall k :: 0 <= k < |ints| ==> -(n as int) <= ints[k] < n)
      && (r.Ok? ==> |r.value| == n)
      && (r.Ok? ==> forall p :: 0 <= p < n ==>
            (r.value[p] <==> exists k :: 0 <= k < |ints| && Normalize(ints[k], n) == Some(p)))
  {
    ElementOfOwn(e);
    assert ElementsOf([e]) == [e];
    ParsedElementOne(Some(Str(e)), e);
    var n := CountIn(data, e);
    var r := Tomasked(data, Some(Indices(ints)), Some(Str(e)));
    if r.Ok? {
      var ps := Positions(Indices(ints), n).value;
      forall p | 0 <= p < n
        ensures r.value[p] <==> exists k :: 0 <= k < |ints| && Normalize(ints[k], n) == Some(p)
      {
        if p in ps {
          var k :| 0 <= k < |ps| && ps[k] == p;
          assert Normalize(ints[k], n) == Some(p);
        }
        if exists k :: 0 <= k < |ints| && Normalize(ints[k], n) == Some(p) {
          var k :| 0 <= k < |ints| && Normalize(ints[k], n) == Some(p);
          assert ps[k] == p;
        }
      }
    }
  }

  lemma ElementOfOwn(e: string)
    requires IsElement(e)
    ensures ElementOf(e) == e
  {
    if e == "pore" { ElementOfPore(); } else { ElementOfThroat(); }
  }

  lemma AllKeysShort()
    ensures !IsLong("pore.all") && !IsLong("throat.all")
  {
    PoreAllShort();
    ThroatAllShort();
  }

  lemma PoreAllShort()
    ensures !IsLong("pore.all")
  {
    assert "pore.all" == "pore" + ['.'] + "all";
    CountPair("pore", "all", '.');
  }

  lemma ThroatAllShort()
    ensures !IsLong("throat.all")
  {
    assert "throat.all" == "throat" + ['.'] + "all";
    CountPair("throat", "all", '.');
  }

  /** A dictionary of just the two 'all' arrays is valid. */
  lemma InitialValid(pores: seq<Scalar>, throats: seq<Scalar>)
    ensures var m := map["pore.all" := pores, "throat.all" := throats];
      HasAll(m) && Unnested(m)
  {
    var m := map["pore.all" := pores, "throat.all" := throats];
    AllKeysShort();
    assert forall k | k in m :: !IsLong(k);
    ShortKeysUnnested(m);
  }

  /** A dictionary without long keys has no nesting conflict. */
  lemma ShortKeysUnnested(m: Data)
    requires forall k | k in m :: !IsLong(k)
    ensures Unnested(m)
  {
  }

  /** `mask = np.zeros(n, dtype=bool); mask[ps] = True` on a fresh array. */
  method FillMask(ps: seq<nat>, n: nat) returns (m: seq<bool>)
    requires forall k :: 0 <= k < |ps| ==> ps[k] < n
    ensures m == MaskOf(ps, n)
  {
    var mask := new bool[n](_ => false);
    for k := 0 to |ps|
      invariant mask[..] == MaskOf(ps[..k], n)
    {
      mask[ps[k]] := true;
      assert ps[..k + 1] == ps[..k] + [ps[k]];
    }
    assert ps[..|ps|] == ps;
    m := mask[..];
  }

  // ---------------------------------------------------------------------------
  // The object

  /** An OpenPNM object without a project: a dictionary of arrays with 'pore.all' and
      'throat.all' always present and no nesting conflicts among its keys. */
  class Base {
    var data: Data

    ghost predicate Valid()
      reads this
    {
      HasAll(data) && Unnested(data)
    }

    /** `Base(Np, Nt)`: all-True 'pore.all' and 'throat.all' arrays and nothing else. */
    constructor(np: nat, nt: nat)
      ensures Valid()
      ensures data == map["pore.all" := seq(np, _ => Bool(true)), "throat.all" := seq(nt, _ => Bool(true))]
    {
      data := map["pore.all" := seq(np, _ => Bool(true)), "throat.all" := seq(nt, _ => Bool(true))];
      new;
      InitialValid(seq(np, _ => Bool(true)), seq(nt, _ => Bool(true)));
    }

    /** `Np`: the length of 'pore.all'. */
    function Np(): nat
      reads this
      requires Valid()
    {
      |data["pore.all"]|
    }

    /** `Nt`: the length of 'throat.all'. */
    function Nt(): nat
      reads this
      requires Valid()
    {
      |data["throat.all"]|
    }

    /** `_count(element)`: the length of the element's 'all' array. */
    function ElementCount(element: Option<Names>): (r: Result<nat, Error>)
      reads this
      requires Valid()
      ensures r.Ok? <==> ParsedElement(element, true).Ok?
      ensures ParsedElement(element, true) == Ok(One("pore")) ==> r == Ok(Np())
      ensures ParsedElement(element, true) == Ok(One("throat")) ==> r == Ok(Nt())
    {
      match ParsedElement(element, true)
      case Err(e) => Err(e)
      case Ok(p) =>
        ParsedElementNames(element, true);
        if p.Many? then Err(BothElements) else Ok(CountIn(data, p.sole))
    }

    /** `__setitem__(key, value)`. */
    method SetItem(key: string, value: Value) returns (err: Option<Error>)
      requires Valid()
      modifies this
      ensures Valid()
      ensures Outcome(data, err) == Assigned(old(data), key, value)
      decreases value
    {
      AssignedUnnested(data, key, value);
      match value
      case Null =>
        err := None;
      case Dict(entries) =>
        ghost var start := data;
        for i := 0 to |entries|
          invariant Valid()
          invariant AssignedFrom(data, key, entries, i) == AssignedFrom(start, key, entries, 0)
        {
          assert entries[i] in entries;
          var e := SetItem(EntryName(key, entries[i].0), entries[i].1);
          if e.Some? {
            return e;
          }
        }
        err := None;
      case Array(items) =>
        var element := Head(key, '.');
        if !IsElement(element) {
          return Some(NotPoreOrThroat);
        }
        if IsLong(key) && Root(key, '.') in data {
          return Some(NesterExists);
        }
        if Count(key, '.') == 1 && LongKeyUnder(data, key) {
          return Some(NestedExists);
        }
        if IsGeometry(key) {
          data := data[key := items];
          return None;
        }
        if Count(key, '.') == 0 {
          return Some(NoProperty);
        }
        if Property(key) == "all" {
          if key !in data || |data[key]| == 0 {
            data := data[key := items];
          }
          return None;
        }
        var n := CountIn(data, element);
        if |items| == 1 {
          data := data[key := seq(n, _ => items[0])];
        } else if |items| == n || n == 0 {
          data := data[key := items];
        } else {
          return Some(WrongLength);
        }
        err := None;
    }

    /** `_tomask(indices, element)`: a fresh all-False array of the element's length with the
        given entries switched on. */
    method Tomask(indices: Option<Locations>, element: Option<Names>) returns (r: Result<seq<bool>, Error>)
      requires Valid()
      ensures r == Tomasked(data, indices, element)
    {
      var parsed := ParseElement(element, true);
      if parsed.Err? {
        return Err(parsed.error);
      }
      if parsed.value.Many? {
        return Err(BothElements);
      }
      var e := parsed.value.sole;
      var ind := ParsedIndices(indices, Np(), Nt());
      if ind.Err? {
        return Err(ind.error);
      }
      ParsedElementNames(element, true);
      var n := CountIn(data, e);
      var ps := Positions(Indices(ind.value), n);
      if ps.None? {
        return Err(IndexOutOfRange);
      }
      var mask := FillMask(ps.value, n);
      r := Ok(mask);
    }

    /** `to_mask(pores, throats)`: exactly one of the two must be given. */
    method ToMask(pores: Option<Locations>, throats: Option<Locations>) returns (r: Result<seq<bool>, Error>)
      requires Valid()
      ensures pores.Some? == throats.Some? ==> r == Err(BothOrNeither)
      ensures pores.Some? && throats.None? ==> r == Tomasked(data, pores, Some(Str("pore")))
      ensures throats.Some? && pores.None? ==> r == Tomasked(data, throats, Some(Str("throat")))
    {
      if pores.Some? && throats.None? {
        r := Tomask(pores, Some(Str("pore")));
      } else if throats.Some? && pores.None? {
        r := Tomask(throats, Some(Str("throat")));
      } else {
        r := Err(BothOrNeither);
      }
    }
  }
}
