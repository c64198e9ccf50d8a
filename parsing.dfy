/** The argument normalisers of the `Base` class: `_parse_element`,
    `_parse_mode`, `_parse_labels`, `_parse_indices` and `to_indices`, and the
    in-place duplicate removal they share. Raised exceptions are `Err` values. */
module Parsing {
  import opened Wrappers
  import opened NdIndex
  import opened PyStr

  /** Which check raised. */
  datatype Error =
    | NotPoreOrThroat     // a name that is neither 'pore' nor 'throat'
    | BothElements        // two elements where a single one is allowed
    | ModeNotAllowed      // a mode outside `allowed`
    | MultipleModes       // two modes where a single one is allowed
    | EmptyList           // IndexError: `[0]` of an empty list
    | LabelsNone          // `labels` is None
    | TempUnbound         // UnboundLocalError: a wildcard that is neither leading nor trailing, first in the list
    | MaskLength          // a boolean mask that is neither Np nor Nt long
    | EmptyMask           // ValueError: `np.amax` of an empty mask
    | NotBoolean          // a mask entry above 1
    | IndexOutOfRange     // IndexError: a position outside the array
    | BothOrNeither       // `to_mask` without exactly one of pores / throats
    | NesterExists        // 'pore.a.b' while 'pore.a' is a key
    | NestedExists        // 'pore.a' while a long key starts with it
    | NoProperty          // IndexError: a key without a '.'
    | WrongLength         // an array whose length is neither 1 nor the count
    | NotAString          // `bctype` is not a str
    | NoBCArrays          // KeyError: no 'pore.bc.*' array at all
    | UnknownBCType       // KeyError: 'pore.bc.<bctype>' does not exist
    | ValuesMismatch      // more than one value, but not one per pore
    | NoValues            // IndexError: an empty value array selected by a non-empty mask

  /** A str or a list of str, as the name arguments accept. */
  datatype Names = Str(s: string) | List(items: seq<string>)

  /** The result of a parser: a list, or the bare string when `single` is set. */
  datatype Parsed = Many(all: seq<string>) | One(sole: string)

  function AsList(n: Names): seq<string>
  {
    match n
    case Str(s) => [s]
    case List(items) => items
  }

  // ---------------------------------------------------------------------------
  // `_ = [l.remove(x) for x in l if l.count(x) > 1]`

  function FirstIndex<T(==)>(l: seq<T>, x: T): (i: nat)
    requires x in l
    ensures i < |l| && l[i] == x && x !in l[..i]
  {
    if l[0] == x then 0
    else
      assert x in l[1..] by { var k :| 0 <= k < |l| && l[k] == x; assert l[1..][k - 1] == x; }
      var j := FirstIndex(l[1..], x);
      assert l[..j + 1] == [l[0]] + l[1..][..j];
      j + 1
  }

  /** `l.remove(x)`: the first occurrence of x taken out. */
  function RemoveFirst<T(==)>(l: seq<T>, x: T): (r: seq<T>)
    requires x in l
    ensures |r| == |l| - 1
    ensures multiset(r) == multiset(l) - multiset{x}
  {
    var i := FirstIndex(l, x);
    assert l == l[..i] + [x] + l[i + 1..];
    l[..i] + l[i + 1..]
  }

  /** `l.count(x)`. */
  function Occurrences<T(==)>(l: seq<T>, x: T): (n: nat)
    ensures n == 0 <==> x !in l
  {
    if |l| == 0 then 0 else (if l[0] == x then 1 else 0) + Occurrences(l[1..], x)
  }

  /** The count is the multiplicity of x in the list's multiset. */
  lemma {:induction false} OccurrencesMultiplicity<T>(l: seq<T>, x: T)
    ensures Occurrences(l, x) == multiset(l)[x]
  {
    if |l| > 0 {
      assert l == [l[0]] + l[1..];
      OccurrencesMultiplicity(l[1..], x);
    }
  }

  /** The list the comprehension leaves behind once its iterator stands at position i. Python
      iterates a list by position, so every removal shifts the rest of the list under the
      iterator and the element after a removed one is skipped. */
  function RepeatsRemovedFrom<T(==,!new)>(l: seq<T>, i: nat): (r: seq<T>)
    ensures |r| <= |l|
    decreases |l| - i
  {
    if i >= |l| then l
    else if Occurrences(l, l[i]) > 1 then RepeatsRemovedFrom(RemoveFirst(l, l[i]), i + 1)
    else RepeatsRemovedFrom(l, i + 1)
  }

  /** The removal keeps every distinct item and adds none: only surplus copies go. */
  lemma {:induction false} RepeatsRemovedKeeps<T(!new)>(l: seq<T>, i: nat)
    ensures var r := RepeatsRemovedFrom(l, i);
      (forall x :: x in r <==> x in l) && multiset(r) <= multiset(l)
    decreases |l| - i
  {
    if i < |l| {
      if Occurrences(l, l[i]) > 1 {
        SurplusRemoved(l, l[i]);
        RepeatsRemovedKeeps(RemoveFirst(l, l[i]), i + 1);
      } else {
        RepeatsRemovedKeeps(l, i + 1);
      }
    }
  }

  /** Taking out one copy of a repeated item keeps the same items. */
  lemma SurplusRemoved<T>(l: seq<T>, y: T)
    requires y in l && Occurrences(l, y) > 1
    ensures var l' := RemoveFirst(l, y);
      (forall x :: x in l' <==> x in l) && multiset(l') <= multiset(l)
  {
    var l' := RemoveFirst(l, y);
    OccurrencesMultiplicity(l, y);
    forall x
      ensures x in l' <==> x in l
    {
      assert x in l' <==> multiset(l')[x] > 0;
      assert x in l <==> multiset(l)[x] > 0;
    }
  }

  /** The in-place duplicate removal of the parsers, run on a copy of the list. */
  method RemoveRepeats<T(==,!new)>(l: seq<T>) returns (r: seq<T>)
    ensures r == RepeatsRemovedFrom(l, 0)
  {
    r := l;
    var i := 0;
    while i < |r|
      invariant RepeatsRemovedFrom(r, i) == RepeatsRemovedFrom(l, 0)
      decreases |r| - i
    {
      var x := r[i];
      if Occurrences(r, x) > 1 {
        r := RemoveFirst(r, x);
      }
      i := i + 1;
    }
  }

  ghost predicate Distinct<T>(l: seq<T>)
  {
    forall i, j :: 0 <= i < j < |l| ==> l[i] != l[j]
  }

  lemma DistinctCount<T>(l: seq<T>, k: nat)
    requires Distinct(l) && k < |l|
    ensures multiset(l)[l[k]] == 1
    decreases |l|
  {
    if k == |l| - 1 {
      var f := l[..k];
      assert l == f + [l[k]];
      assert l[k] !in f;
    } else {
      var f := l[..|l| - 1];
      assert l == f + [l[|l| - 1]];
      assert f[k] == l[k];
      DistinctCount(f, k);
    }
  }

  /** A list without repeats comes through untouched. */
  lemma {:induction false} RepeatsRemovedDistinct<T(!new)>(l: seq<T>, i: nat)
    requires Distinct(l)
    ensures RepeatsRemovedFrom(l, i) == l
    decreases |l| - i
  {
    if i < |l| {
      DistinctCount(l, i);
      OccurrencesMultiplicity(l, l[i]);
      RepeatsRemovedDistinct(l, i + 1);
    }
  }

  /** Two copies of a repeated value become one. */
  lemma RepeatsRemovedPair<T(!new)>(x: T)
    ensures RepeatsRemovedFrom([x, x], 0) == [x]
  {
    assert [x, x][1..] == [x];
    HeadRemoved([x, x], 0);
  }

  /** When the item at position i is a copy of the head, the comprehension removes the head. */
  lemma HeadRemoved<T(!new)>(l: seq<T>, i: nat)
    requires i < |l| && l[i] == l[0] && l[0] in l[1..]
    ensures RepeatsRemovedFrom(l, i) == RepeatsRemovedFrom(l[1..], i + 1)
  {
    assert Occurrences(l, l[0]) == 1 + Occurrences(l[1..], l[0]);
    assert FirstIndex(l, l[0]) == 0;
    assert RemoveFirst(l, l[0]) == l[1..];
  }

  /** Not every repeat is removed: four copies of a value leave two. */
  lemma RepeatsRemovedFour<T(!new)>(x: T)
    ensures RepeatsRemovedFrom([x, x, x, x], 0) == [x, x]
  {
    FourFirst(x);
    ThreeSecond(x);
  }

  lemma FourFirst<T(!new)>(x: T)
    ensures RepeatsRemovedFrom([x, x, x, x], 0) == RepeatsRemovedFrom([x, x, x], 1)
  {
    var l := [x, x, x, x];
    assert l[1..] == [x, x, x];
    assert Occurrences(l, x) == 1 + Occurrences([x, x, x], x);
    assert FirstIndex(l, x) == 0;
  }

  lemma ThreeSecond<T(!new)>(x: T)
    ensures RepeatsRemovedFrom([x, x, x], 1) == [x, x]
  {
    var l := [x, x, x];
    assert l[1..] == [x, x];
    HeadRemoved(l, 1);
  }

  // ---------------------------------------------------------------------------
  // `_parse_element`

  /** `item.split('.')[0].lower().rsplit('s', maxsplit=1)[0]`. */
  function ElementOf(item: string): string
  {
    BeforeLast(Lower(Head(item, '.')), 's')
  }

  predicate IsElement(e: string)
  {
    e == "pore" || e == "throat"
  }

  /** The names `_parse_element` works on: both elements for None, else the str or the list. */
  function GivenElements(element: Option<Names>): seq<string>
  {
    if element.None? then ["pore", "throat"] else AsList(element.value)
  }

  /** The list comprehensions of `_parse_element`, name by name. */
  function ElementsOf(given: seq<string>): (r: seq<string>)
    ensures |r| == |given| && forall k :: 0 <= k < |given| ==> r[k] == ElementOf(given[k])
  {
    seq(|given|, k requires 0 <= k < |given| => ElementOf(given[k]))
  }

  predicate AllElements(names: seq<string>)
  {
    forall k | 0 <= k < |names| :: IsElement(names[k])
  }

  /** What `_parse_element(element, single)` returns or raises. */
  function ParsedElement(element: Option<Names>, single: bool): Result<Parsed, Error>
  {
    var names := ElementsOf(GivenElements(element));
    if !AllElements(names) then Err(NotPoreOrThroat)
    else
      var kept := RepeatsRemovedFrom(names, 0);
      if !single then Ok(Many(kept))
      else if |kept| > 1 then Err(BothElements)
      else if |kept| == 0 then Err(EmptyList)
      else Ok(One(kept[0]))
  }

  method ParseElement(element: Option<Names>, single: bool) returns (r: Result<Parsed, Error>)
    ensures r == ParsedElement(element, single)
  {
    var names := ElementsOf(GivenElements(element));
    if !AllElements(names) {
      return Err(NotPoreOrThroat);
    }
    var kept := RemoveRepeats(names);
    if !single {
      r := Ok(Many(kept));
    } else if |kept| > 1 {
      r := Err(BothElements);
    } else if |kept| == 0 {
      r := Err(EmptyList);
    } else {
      r := Ok(One(kept[0]));
    }
  }

  /** `_parse_element` raises NotPoreOrThroat exactly when some given name does not
      normalise to 'pore' or 'throat'. */
  lemma ParsedElementRaises(element: Option<Names>, single: bool)
    ensures ParsedElement(element, single) == Err(NotPoreOrThroat) <==>
      exists n :: n in GivenElements(element) && !IsElement(ElementOf(n))
  {
    var given := GivenElements(element);
    MappedAll(given, ElementsOf(given), ElementOf);
  }

  /** A list mapped name by name is all elements exactly when every name maps to one. */
  lemma MappedAll(given: seq<string>, names: seq<string>, f: string -> string)
    requires |names| == |given| && forall k :: 0 <= k < |given| ==> names[k] == f(given[k])
    ensures AllElements(names) <==> forall n :: n in given ==> IsElement(f(n))
  {
    if exists n :: n in given && !IsElement(f(n)) {
      var n :| n in given && !IsElement(f(n));
      var k :| 0 <= k < |given| && given[k] == n;
      assert !IsElement(names[k]);
    }
    if !AllElements(names) {
      var k :| 0 <= k < |names| && !IsElement(names[k]);
      assert given[k] in given;
    }
  }

  /** Everything `_parse_element` returns is 'pore' or 'throat', and without `single` it returns
      every element it was given. */
  lemma ParsedElementNames(element: Option<Names>, single: bool)
    ensures var r := ParsedElement(element, single);
      && (r.Ok? && r.value.Many? ==> forall e :: e in r.value.all ==> IsElement(e))
      && (r.Ok? && r.value.One? ==> IsElement(r.value.sole))
    ensures var r := ParsedElement(element, single);
      r.Ok? && r.value.Many? ==> forall n :: n in GivenElements(element) ==> ElementOf(n) in r.value.all
  {
    var given := GivenElements(element);
    var names := ElementsOf(given);
    if AllElements(names) {
      var kept := RepeatsRemovedFrom(names, 0);
      RepeatsRemovedKeeps(names, 0);
      forall e | e in kept
        ensures IsElement(e)
      {
        var k :| 0 <= k < |names| && names[k] == e;
      }
      forall n | n in given
        ensures ElementOf(n) in kept
      {
        var k :| 0 <= k < |given| && given[k] == n;
        assert names[k] in names;
      }
    }
  }

  lemma ElementOfPore()
    ensures ElementOf("pore") == "pore"
  {
  }

  lemma ElementOfThroat()
    ensures ElementOf("throat") == "throat"
  {
  }

  lemma ElementOfPlural()
    ensures ElementOf("pores") == "pore"
  {
    assert LastIndexOf("pores", 's') == 4;
  }

  lemma HeadOfProperty()
    ensures Head("Throat.diameter", '.') == "Throat"
  {
    assert "Throat.diameter" == "Throat" + ['.'] + "diameter";
    HeadOfJoined("Throat", "diameter", '.');
  }

  lemma LowerOfProperty()
    ensures Lower("Throat") == "throat"
  {
  }

  lemma SingularThroat()
    ensures BeforeLast("throat", 's') == "throat"
  {
  }

  lemma ElementOfProperty()
    ensures ElementOf("Throat.diameter") == "throat"
  {
    HeadOfProperty();
    LowerOfProperty();
    SingularThroat();
  }

  /** One name that normalises to an element, asked for alone (`single` set), comes back bare. */
  lemma ParsedElementOne(element: Option<Names>, e: string)
    requires ElementsOf(GivenElements(element)) == [e] && IsElement(e)
    ensures ParsedElement(element, true) == Ok(One(e))
  {
    RepeatsRemovedDistinct([e], 0);
  }

  /** None stands for both elements, and only one of them may be asked for when `single` is set. */
  lemma ParsedElementNone()
    ensures ParsedElement(None, false) == Ok(Many(["pore", "throat"]))
    ensures ParsedElement(None, true) == Err(BothElements)
  {
    ElementOfPore();
    ElementOfThroat();
    var both := ["pore", "throat"];
    assert ElementsOf(both) == both;
    RepeatsRemovedDistinct(both, 0);
  }

  /** A plural stands for its element. */
  lemma ParsedElementPlural()
    ensures ParsedElement(Some(Str("pores")), true) == Ok(One("pore"))
  {
    ElementOfPlural();
    ParsedSingleName("pores", "pore");
  }

  /** A property name stands for its element, in any case. */
  lemma ParsedElementProperty()
    ensures ParsedElement(Some(Str("Throat.diameter")), true) == Ok(One("throat"))
  {
    ElementOfProperty();
    ParsedSingleName("Throat.diameter", "throat");
  }

  /** One name that normalises to an element, asked for alone, gives that element. */
  lemma ParsedSingleName(n: string, e: string)
    requires ElementOf(n) == e && IsElement(e)
    ensures ParsedElement(Some(Str(n)), true) == Ok(One(e))
  {
    assert ElementsOf([n]) == [e];
    ParsedElementOne(Some(Str(n)), e);
  }

  /** A name that is neither element raises, and so does an empty list with `single` set. */
  lemma ParsedElementErrors()
    ensures ParsedElement(Some(Str("bond")), false) == Err(NotPoreOrThroat)
    ensures ParsedElement(Some(List([])), true) == Err(EmptyList)
  {
    ElementOfBond();
    ParsedNonElement("bond");
    ParsedEmptyList();
  }

  lemma ElementOfBond()
    ensures ElementOf("bond") == "bond"
  {
  }

  lemma ParsedNonElement(n: string)
    requires !IsElement(ElementOf(n))
    ensures ParsedElement(Some(Str(n)), false) == Err(NotPoreOrThroat)
  {
    assert ElementsOf([n])[0] == ElementOf(n);
  }

  lemma ParsedEmptyList()
    ensures ParsedElement(Some(List([])), true) == Err(EmptyList)
  {
    var none: seq<string> := [];
    assert ElementsOf(none) == none;
  }

  /** Names that all normalise to elements, both of them among them, raise when `single` is set:
      the removal keeps one of each, so two remain. */
  lemma ParsedElementMany(element: Option<Names>)
    requires var names := ElementsOf(GivenElements(element));
      AllElements(names) && "pore" in names && "throat" in names
    ensures ParsedElement(element, true) == Err(BothElements)
  {
    PoreNotThroat();
    KeptBoth(ElementsOf(GivenElements(element)), "pore", "throat");
  }

  lemma PoreNotThroat()
    ensures "pore" != "throat"
  {
    assert |"pore"| != |"throat"|;
  }

  /** The removal keeps two different items of a list, so at least two remain. */
  lemma KeptBoth<T(!new)>(l: seq<T>, a: T, b: T)
    requires a in l && b in l && a != b
    ensures |RepeatsRemovedFrom(l, 0)| > 1
  {
    var kept := RepeatsRemovedFrom(l, 0);
    RepeatsRemovedKeeps(l, 0);
    var i :| 0 <= i < |kept| && kept[i] == a;
    var j :| 0 <= j < |kept| && kept[j] == b;
  }

  /** Four copies of one element with `single` set raise, since the removal leaves two. */
  lemma ParsedElementFourCopies()
    ensures ParsedElement(Some(List(["pore", "pore", "pore", "pore"])), true) == Err(BothElements)
  {
    FourElements();
    RepeatsRemovedFour("pore");
  }

  lemma FourElements()
    ensures ElementsOf(["pore", "pore", "pore", "pore"]) == ["pore", "pore", "pore", "pore"]
    ensures AllElements(["pore", "pore", "pore", "pore"])
  {
    ElementOfPore();
  }

  // ---------------------------------------------------------------------------
  // `_parse_mode`

  /** What `_parse_mode(mode, allowed, single)` returns or raises. */
  function ParsedMode(mode: Names, allowed: Option<seq<string>>, single: bool): Result<Parsed, Error>
  {
    var given := AsList(mode);
    if allowed.Some? && exists k | 0 <= k < |given| :: given[k] !in allowed.value then Err(ModeNotAllowed)
    else
      var kept := RepeatsRemovedFrom(given, 0);
      if !single then Ok(Many(kept))
      else if |kept| > 1 then Err(MultipleModes)
      else if |kept| == 0 then Err(EmptyList)
      else Ok(One(kept[0]))
  }

  method ParseMode(mode: Names, allowed: Option<seq<string>>, single: bool) returns (r: Result<Parsed, Error>)
    ensures r == ParsedMode(mode, allowed, single)
  {
    var given := AsList(mode);
    for k := 0 to |given|
      invariant allowed.Some? ==> forall j :: 0 <= j < k ==> given[j] in allowed.value
    {
      if allowed.Some? && given[k] !in allowed.value {
        return Err(ModeNotAllowed);
      }
    }
    var kept := RemoveRepeats(given);
    if !single {
      r := Ok(Many(kept));
    } else if |kept| > 1 {
      r := Err(MultipleModes);
    } else if |kept| == 0 {
      r := Err(EmptyList);
    } else {
      r := Ok(One(kept[0]));
    }
  }

  /** Every returned mode is allowed, none of the given ones is lost, and the call raises
      ModeNotAllowed exactly when a given mode is outside `allowed`. */
  lemma ParsedModeAllowed(mode: Names, allowed: Option<seq<string>>, single: bool)
    ensures ParsedMode(mode, allowed, single) == Err(ModeNotAllowed) <==>
      allowed.Some? && exists m :: m in AsList(mode) && m !in allowed.value
    ensures var r := ParsedMode(mode, allowed, single);
      allowed.Some? && r.Ok? ==>
        (r.value.Many? ==> forall m :: m in r.value.all ==> m in allowed.value) &&
        (r.value.One? ==> r.value.sole in allowed.value)
    ensures var r := ParsedMode(mode, allowed, single);
      r.Ok? && r.value.Many? ==> forall m :: m in r.value.all <==> m in AsList(mode)
  {
    RepeatsRemovedKeeps(AsList(mode), 0);
  }

  /** A single allowed mode string comes back as itself. */
  lemma ParsedModeSingle(m: string, allowed: seq<string>)
    requires m in allowed
    ensures ParsedMode(Str(m), Some(allowed), true) == Ok(One(m))
  {
    RepeatsRemovedDistinct([m], 0);
  }

  /** The same mode four times with `single` set raises, since the removal leaves two. */
  lemma ParsedModeFourCopies(m: string)
    ensures ParsedMode(List([m, m, m, m]), None, true) == Err(MultipleModes)
  {
    RepeatsRemovedFour(m);
  }

  // ---------------------------------------------------------------------------
  // `_parse_labels`

  /** The last dotted parts of the element's label names. */
  function LastParts(labelNames: seq<string>): (r: seq<string>)
    ensures |r| == |labelNames| && forall k :: 0 <= k < |r| ==> r[k] == Last(labelNames[k], '.')
  {
    seq(|labelNames|, k requires 0 <= k < |labelNames| => Last(labelNames[k], '.'))
  }

  function Filter(ls: seq<string>, keep: string -> bool): (r: seq<string>)
    ensures forall x :: x in r <==> x in ls && keep(x)
  {
    if |ls| == 0 then []
    else Filter(ls[..|ls| - 1], keep) + (if keep(ls[|ls| - 1]) then [ls[|ls| - 1]] else [])
  }

  function Prefixed(element: string, ls: seq<string>): (r: seq<string>)
    ensures |r| == |ls| && forall k :: 0 <= k < |r| ==> r[k] == element + "." + ls[k]
  {
    seq(|ls|, k requires 0 <= k < |ls| => element + "." + ls[k])
  }

  /** One pass of the loop body: the new `temp` for `label`, given the one left by the previous
      pass (None before the first). `labelNames` is what `self.labels(element=element)` returns. */
  function LabelTemp(given: string, element: string, labelNames: seq<string>, temp: Option<seq<string>>)
    : Result<seq<string>, Error>
  {
    var name := if Contains(given, element) then Last(given, '.') else given;
    if '*' in name then
      var ls := LastParts(labelNames);
      var core := Strip(name, '*');
      var t := if StartsWith(name, "*") then Some(Filter(ls, l => EndsWith(l, core))) else temp;
      var t := if EndsWith(name, "*") then Some(Filter(ls, l => StartsWith(l, core))) else t;
      if t.None? then Err(TempUnbound) else Ok(Prefixed(element, t.value))
    else Ok([element + "." + name])
  }

  /** The loop of `_parse_labels` from label i on, with `temp` and `parsed` as left so far. */
  function LabelsFrom(labels: seq<string>, i: nat, element: string, labelNames: seq<string>,
                      temp: Option<seq<string>>, parsed: seq<string>): Result<seq<string>, Error>
    decreases |labels| - i
  {
    if i >= |labels| then Ok(parsed)
    else match LabelTemp(labels[i], element, labelNames, temp)
      case Err(e) => Err(e)
      case Ok(t) => LabelsFrom(labels, i + 1, element, labelNames, Some(t), RepeatsRemovedFrom(parsed + t, 0))
  }

  /** What `_parse_labels(labels, element)` returns or raises. */
  function ParsedLabels(labels: Option<Names>, element: string, labelNames: seq<string>): Result<seq<string>, Error>
  {
    if labels.None? then Err(LabelsNone)
    else LabelsFrom(AsList(labels.value), 0, element, labelNames, None, [])
  }

  method ParseLabels(labels: Option<Names>, element: string, labelNames: seq<string>) returns (r: Result<seq<string>, Error>)
    ensures r == ParsedLabels(labels, element, labelNames)
  {
    if labels.None? {
      return Err(LabelsNone);
    }
    var ls := AsList(labels.value);
    var parsed: seq<string> := [];
    var temp: Option<seq<string>> := None;
    for i := 0 to |ls|
      invariant LabelsFrom(ls, i, element, labelNames, temp, parsed) == ParsedLabels(labels, element, labelNames)
    {
      match LabelTemp(ls[i], element, labelNames, temp)
      case Err(e) =>
        return Err(e);
      case Ok(t) =>
        temp := Some(t);
        parsed := RemoveRepeats(parsed + t);
    }
    r := Ok(parsed);
  }

  /** A plain label becomes `element + '.' + label`, cut to its last dotted part when it names
      the element. */
  lemma ParsedLabelPlain(given: string, element: string, labelNames: seq<string>)
    requires '*' !in given
    ensures ParsedLabels(Some(Str(given)), element, labelNames) ==
      Ok([element + "." + (if Contains(given, element) then Last(given, '.') else given)])
  {
    var l := if Contains(given, element) then Last(given, '.') else given;
    assert '*' !in l by {
      if Contains(given, element) {
        LastPiece(given, '.');
      }
    }
    var t := [element + "." + l];
    assert LabelTemp(given, element, labelNames, None) == Ok(t);
    assert [] + t == t;
    RepeatsRemovedDistinct(t, 0);
    assert LabelsFrom([given], 0, element, labelNames, None, []) == LabelsFrom([given], 1, element, labelNames, Some(t), t);
  }

  /** The last part of a split is a piece of the string, so it lacks what the string lacks. */
  lemma LastPiece(s: string, sep: char)
    ensures forall ch :: ch in Last(s, sep) ==> ch in s
    decreases |s|
  {
    if sep in s {
      var i := IndexOf(s, sep);
      LastPiece(s[i + 1..], sep);
      assert Last(s, sep) == Last(s[i + 1..], sep);
      forall ch | ch in s[i + 1..]
        ensures ch in s
      {
        var k :| 0 <= k < |s[i + 1..]| && s[i + 1..][k] == ch;
        assert s[i + 1 + k] == ch;
      }
    }
  }

  /** The prefixed labels kept by a filter are exactly the prefixed names it accepts. */
  lemma PrefixedFilter(element: string, ls: seq<string>, keep: string -> bool)
    ensures forall l :: l in Prefixed(element, Filter(ls, keep)) <==>
      exists k | 0 <= k < |ls| :: keep(ls[k]) && l == element + "." + ls[k]
  {
    forall l
      ensures l in Prefixed(element, Filter(ls, keep)) <==>
        exists k | 0 <= k < |ls| :: keep(ls[k]) && l == element + "." + ls[k]
    {
      PrefixedFilterOne(element, ls, keep, l);
    }
  }

  lemma PrefixedFilterOne(element: string, ls: seq<string>, keep: string -> bool, l: string)
    ensures l in Prefixed(element, Filter(ls, keep)) <==>
      exists k | 0 <= k < |ls| :: keep(ls[k]) && l == element + "." + ls[k]
  {
    if l in Prefixed(element, Filter(ls, keep)) {
      PrefixedFilterFrom(element, ls, keep, l);
    }
    if exists k | 0 <= k < |ls| :: keep(ls[k]) && l == element + "." + ls[k] {
      var k :| 0 <= k < |ls| && keep(ls[k]) && l == element + "." + ls[k];
      PrefixedFilterTo(element, ls, keep, k);
    }
  }

  lemma PrefixedFilterFrom(element: string, ls: seq<string>, keep: string -> bool, l: string)
    requires l in Prefixed(element, Filter(ls, keep))
    ensures exists k | 0 <= k < |ls| :: keep(ls[k]) && l == element + "." + ls[k]
  {
    var f := Filter(ls, keep);
    var t := Prefixed(element, f);
    var j :| 0 <= j < |t| && t[j] == l;
    var k := FilterSource(ls, keep, j);
    assert l == element + "." + ls[k];
  }

  /** Where an item kept by the filter came from. */
  lemma FilterSource(ls: seq<string>, keep: string -> bool, j: nat) returns (k: nat)
    requires j < |Filter(ls, keep)|
    ensures k < |ls| && ls[k] == Filter(ls, keep)[j] && keep(ls[k])
  {
    var x := Filter(ls, keep)[j];
    assert x in Filter(ls, keep);
    k :| 0 <= k < |ls| && ls[k] == x;
  }

  lemma PrefixedFilterTo(element: string, ls: seq<string>, keep: string -> bool, k: nat)
    requires k < |ls| && keep(ls[k])
    ensures element + "." + ls[k] in Prefixed(element, Filter(ls, keep))
  {
    var f := Filter(ls, keep);
    assert ls[k] in f;
    var j :| 0 <= j < |f| && f[j] == ls[k];
    assert Prefixed(element, f)[j] == element + "." + ls[k];
  }


  /** A single label gives the labels of its one pass, each once or more. */
  lemma ParsedLabelOne(given: string, element: string, labelNames: seq<string>, t: seq<string>)
    requires LabelTemp(given, element, labelNames, None) == Ok(t)
    ensures var r := ParsedLabels(Some(Str(given)), element, labelNames);
      r.Ok? && forall l :: l in r.value <==> l in t
  {
    assert [] + t == t;
    RepeatsRemovedKeeps(t, 0);
    assert LabelsFrom([given], 0, element, labelNames, None, []) ==
      LabelsFrom([given], 1, element, labelNames, Some(t), RepeatsRemovedFrom(t, 0));
  }

  /** `'*x'` gives `element + '.' + L` for the label names whose last part L ends in x (x free of
      '*', the label not naming the element). */
  lemma ParsedLabelLeading(x: string, element: string, labelNames: seq<string>)
    requires '*' !in x && |x| > 0
    requires !Contains("*" + x, element)
    ensures var r := ParsedLabels(Some(Str("*" + x)), element, labelNames);
      r.Ok? && forall l :: l in r.value <==>
        exists k | 0 <= k < |labelNames| :: EndsWith(Last(labelNames[k], '.'), x) &&
          l == element + "." + Last(labelNames[k], '.')
  {
    var ls := LastParts(labelNames);
    var keep := l => EndsWith(l, x);
    LeadingTemp(x, element, labelNames);
    ParsedLabelOne("*" + x, element, labelNames, Prefixed(element, Filter(ls, keep)));
    PrefixedFilter(element, ls, keep);
  }

  lemma LeadingTemp(x: string, element: string, labelNames: seq<string>)
    requires '*' !in x && |x| > 0
    requires !Contains("*" + x, element)
    ensures LabelTemp("*" + x, element, labelNames, None) ==
      Ok(Prefixed(element, Filter(LastParts(labelNames), l => EndsWith(l, x))))
  {
    var lead := "*" + x;
    assert '*' in lead by {
      assert lead[0] == '*';
    }
    assert StartsWith(lead, "*") && !EndsWith(lead, "*") by {
      assert lead[|lead| - 1] == x[|x| - 1];
    }
    StripStars(x);
  }

  /** `'x*'` gives `element + '.' + L` for the label names whose last part L starts with x. */
  lemma ParsedLabelTrailing(x: string, element: string, labelNames: seq<string>)
    requires '*' !in x && |x| > 0
    requires !Contains(x + "*", element)
    ensures var r := ParsedLabels(Some(Str(x + "*")), element, labelNames);
      r.Ok? && forall l :: l in r.value <==>
        exists k | 0 <= k < |labelNames| :: StartsWith(Last(labelNames[k], '.'), x) &&
          l == element + "." + Last(labelNames[k], '.')
  {
    var ls := LastParts(labelNames);
    var keep := l => StartsWith(l, x);
    TrailingTemp(x, element, labelNames);
    ParsedLabelOne(x + "*", element, labelNames, Prefixed(element, Filter(ls, keep)));
    PrefixedFilter(element, ls, keep);
  }

  lemma TrailingTemp(x: string, element: string, labelNames: seq<string>)
    requires '*' !in x && |x| > 0
    requires !Contains(x + "*", element)
    ensures LabelTemp(x + "*", element, labelNames, None) ==
      Ok(Prefixed(element, Filter(LastParts(labelNames), l => StartsWith(l, x))))
  {
    TrailingStar(x);
  }

  lemma TrailingStar(x: string)
    requires '*' !in x && |x| > 0
    ensures var trail := x + "*";
      '*' in trail && EndsWith(trail, "*") && !StartsWith(trail, "*") && Strip(trail, '*') == x
  {
    var trail := x + "*";
    assert trail[|x|] == '*';
    assert trail[0] == x[0];
    StripStars(x);
  }

  /** `('*' + x).strip('*') == x` and `(x + '*').strip('*') == x` for a star-free x. */
  lemma StripStars(x: string)
    requires '*' !in x && |x| > 0
    ensures Strip("*" + x, '*') == x && Strip(x + "*", '*') == x
  {
    var a := "*" + x;
    assert a[1..] == x;
    assert StripLeft(a, '*') == x;
    assert StripLeft(x, '*') == x;
    assert StripRight(x, '*') == x;
    var b := x + "*";
    assert b[..|b| - 1] == x;
    assert StripLeft(b, '*') == b;
    assert StripRight(b, '*') == x;
  }

  /** A wildcard in the middle of the first label has no `temp` to fall back on and raises. */
  lemma ParsedLabelStale()
    ensures ParsedLabels(Some(Str("a*b")), "pore", []) == Err(TempUnbound)
  {
    var l := "a*b";
    assert !Contains(l, "pore");
    assert l[1] == '*';
    assert !StartsWith(l, "*") && !EndsWith(l, "*");
  }

  /** A wildcard in the middle of a later label has the previous pass's `temp` to fall back on:
      `_parse_labels` prefixes that list with the element once more. */
  lemma StaleTempReused(given: string, element: string, labelNames: seq<string>, t: seq<string>)
    requires !Contains(given, element) && '*' in given
    requires !StartsWith(given, "*") && !EndsWith(given, "*")
    ensures LabelTemp(given, element, labelNames, Some(t)) == Ok(Prefixed(element, t))
  {
  }

  /** `['a', 'b*c']` for pores: the second label reuses `['pore.a']` and gives 'pore.pore.a'. */
  lemma ParsedLabelStaleSecond()
    ensures ParsedLabels(Some(List(["a", "b*c"])), "pore", []) == Ok(["pore.a", "pore.pore.a"])
  {
    var ls := ["a", "b*c"];
    PlainA();
    MiddleStar();
    var first := ["pore.a"];
    var both := ["pore.a", "pore.pore.a"];
    assert [] + first == first;
    RepeatsRemovedDistinct(first, 0);
    assert first + ["pore.pore.a"] == both;
    StaleDistinct();
    assert LabelsFrom(ls, 0, "pore", [], None, []) == LabelsFrom(ls, 1, "pore", [], Some(first), first);
    assert LabelsFrom(ls, 1, "pore", [], Some(first), first) == LabelsFrom(ls, 2, "pore", [], Some(["pore.pore.a"]), both);
  }

  lemma PlainA()
    ensures LabelTemp("a", "pore", [], None) == Ok(["pore.a"])
  {
    assert !Contains("a", "pore");
    assert "pore" + "." + "a" == "pore.a";
  }

  lemma MiddleStar()
    ensures LabelTemp("b*c", "pore", [], Some(["pore.a"])) == Ok(["pore.pore.a"])
  {
    var l := "b*c";
    assert !Contains(l, "pore");
    assert l[1] == '*';
    assert !StartsWith(l, "*") && !EndsWith(l, "*");
    StaleTempReused(l, "pore", [], ["pore.a"]);
    PrefixedAgain();
  }

  lemma PrefixedAgain()
    ensures Prefixed("pore", ["pore.a"]) == ["pore.pore.a"]
  {
    assert "pore" + "." + "pore.a" == "pore.pore.a";
  }

  lemma StaleDistinct()
    ensures RepeatsRemovedFrom(["pore.a", "pore.pore.a"], 0) == ["pore.a", "pore.pore.a"]
  {
    var both := ["pore.a", "pore.pore.a"];
    assert |both[0]| != |both[1]|;
    RepeatsRemovedDistinct(both, 0);
  }

  // ---------------------------------------------------------------------------
  // `_parse_indices` and `to_indices`

  /** `_parse_indices(indices)` on an object with np pores and nt throats. Integer positions
      pass through unchecked; a mask becomes its True positions, judged against Np first. */
  function ParsedIndices(indices: Option<Locations>, np: nat, nt: nat): (r: Result<seq<int>, Error>)
    ensures indices.None? ==> r == Ok([])
    ensures indices.Some? && indices.value.Indices? ==> r == Ok(indices.value.ints)
    ensures indices.Some? && indices.value.Mask? ==>
      (r.Ok? <==> |indices.value.bits| == np || |indices.value.bits| == nt)
    ensures indices.Some? && indices.value.Mask? && r.Ok? ==>
      && (forall p :: p in r.value <==> 0 <= p < |indices.value.bits| && indices.value.bits[p])
      && (forall i, j :: 0 <= i < j < |r.value| ==> r.value[i] < r.value[j])
    ensures r.Err? ==> r.error == MaskLength
  {
    match indices
    case None => Ok([])
    case Some(Indices(ints)) => Ok(ints)
    case Some(Mask(bits)) =>
      if |bits| == np then Ok(TrueIndices(bits))
      else if |bits| == nt then Ok(TrueIndices(bits))
      else Err(MaskLength)
  }

  /** The largest entry of a non-empty list. */
  function Max(xs: seq<int>): (m: int)
    requires |xs| > 0
    ensures forall k :: 0 <= k < |xs| ==> xs[k] <= m
    ensures exists k :: 0 <= k < |xs| && xs[k] == m
  {
    if |xs| == 1 then xs[0]
    else
      var m := Max(xs[..|xs| - 1]);
      assert forall k :: 0 <= k < |xs| - 1 ==> xs[..|xs| - 1][k] == xs[k];
      if xs[|xs| - 1] > m then xs[|xs| - 1] else m
  }

  /** `to_indices(mask)` for a mask of integers (True counting as 1): it raises on an empty mask
      (`np.amax`), on any entry above 1, and on a length that is neither Np nor Nt; otherwise it
      gives the positions of the non-zero entries in increasing order. */
  function ToIndices(mask: seq<int>, np: nat, nt: nat): (r: Result<seq<int>, Error>)
    ensures r.Ok? <==> |mask| > 0 && (forall k :: 0 <= k < |mask| ==> mask[k] <= 1) && (|mask| == np || |mask| == nt)
    ensures r.Ok? ==> forall p :: p in r.value <==> 0 <= p < |mask| && mask[p] != 0
    ensures r.Ok? ==> forall i, j :: 0 <= i < j < |r.value| ==> r.value[i] < r.value[j]
  {
    if |mask| == 0 then Err(EmptyMask)
    else if Max(mask) > 1 then Err(NotBoolean)
    else
      var bits := seq(|mask|, k requires 0 <= k < |mask| => mask[k] != 0);
      ParsedIndices(Some(Mask(bits)), np, nt)
  }
}
