/** The few Python `str` methods the name handling relies on, on `seq<char>`:
    `split` and `join` on one separator character, `count`, `startswith`,
    `endswith`, the `in` substring test, `strip`, ASCII `lower`, `rsplit` with
    `maxsplit=1` and `replace`. */
module PyStr {

  /** p occurs in s starting at position i. */
  predicate OccursAt(s: string, p: string, i: int)
  {
    0 <= i <= |s| - |p| && s[i..i + |p|] == p
  }

  /** `p in s` for strings: p occurs in s as a contiguous piece. */
  predicate Contains(s: string, p: string)
  {
    exists i | 0 <= i <= |s| - |p| :: OccursAt(s, p, i)
  }

  predicate StartsWith(s: string, p: string)
  {
    |p| <= |s| && s[..|p|] == p
  }

  predicate EndsWith(s: string, p: string)
  {
    |p| <= |s| && s[|s| - |p|..] == p
  }

  /** `s.count(c)` for a single character. */
  function Count(s: string, c: char): (n: nat)
    ensures n <= |s|
    ensures n == 0 <==> c !in s
  {
    if |s| == 0 then 0 else (if s[0] == c then 1 else 0) + Count(s[1..], c)
  }

  /** `s.index(c)`: the first position of c. */
  function IndexOf(s: string, c: char): (i: nat)
    requires c in s
    ensures i < |s| && s[i] == c && c !in s[..i]
  {
    if s[0] == c then 0 else
      assert c in s[1..] by { var k :| 0 <= k < |s| && s[k] == c; assert s[1..][k - 1] == c; }
      var j := IndexOf(s[1..], c);
      assert s[..j + 1] == [s[0]] + s[1..][..j];
      j + 1
  }

  /** `s.split(sep)` for a one-character separator. */
  function Split(s: string, sep: char): (r: seq<string>)
    ensures |r| >= 1
    ensures forall k :: 0 <= k < |r| ==> sep !in r[k]
    decreases |s|
  {
    if sep !in s then [s]
    else
      var i := IndexOf(s, sep);
      [s[..i]] + Split(s[i + 1..], sep)
  }

  /** `sep.join(parts)`. */
  function Join(parts: seq<string>, sep: char): string
  {
    if |parts| == 0 then []
    else if |parts| == 1 then parts[0]
    else parts[0] + [sep] + Join(parts[1..], sep)
  }

  /** Joining the pieces of a split gives back the string. */
  lemma {:induction false} JoinSplit(s: string, sep: char)
    ensures Join(Split(s, sep), sep) == s
    decreases |s|
  {
    if sep in s {
      var i := IndexOf(s, sep);
      var rest := s[i + 1..];
      JoinSplit(rest, sep);
      assert Split(s, sep) == [s[..i]] + Split(rest, sep);
      JoinCons(s[..i], Split(rest, sep), sep);
      assert s == s[..i] + [sep] + rest;
    }
  }

  /** Joining a piece in front of a non-empty list of pieces. */
  lemma JoinCons(x: string, tail: seq<string>, sep: char)
    requires |tail| >= 1
    ensures Join([x] + tail, sep) == x + [sep] + Join(tail, sep)
  {
    var l := [x] + tail;
    assert l[0] == x && l[1..] == tail;
  }

  /** Splitting a join of separator-free pieces gives back the pieces. */
  lemma {:induction false} SplitJoin(parts: seq<string>, sep: char)
    requires |parts| >= 1 && forall k :: 0 <= k < |parts| ==> sep !in parts[k]
    ensures Split(Join(parts, sep), sep) == parts
    decreases |parts|
  {
    if |parts| > 1 {
      var s := Join(parts, sep);
      var rest := Join(parts[1..], sep);
      assert s == parts[0] + [sep] + rest;
      assert s[|parts[0]|] == sep;
      var i := IndexOf(s, sep);
      assert s[..i] == parts[0];
      assert s[i + 1..] == rest;
      SplitJoin(parts[1..], sep);
    } else {
      assert Join(parts, sep) == parts[0];
    }
  }

  /** A split has one more piece than the string has separators. */
  lemma {:induction false} SplitCount(s: string, sep: char)
    ensures |Split(s, sep)| == Count(s, sep) + 1
    decreases |s|
  {
    if sep in s {
      var i := IndexOf(s, sep);
      var a, b := s[..i], s[i + 1..];
      SplitCount(b, sep);
      assert |Split(s, sep)| == 1 + |Split(b, sep)|;
      CountAt(s, i, sep);
    }
  }

  /** Counting around one position of a string. */
  lemma CountAt(s: string, i: nat, c: char)
    requires i < |s|
    ensures Count(s, c) == Count(s[..i], c) + (if s[i] == c then 1 else 0) + Count(s[i + 1..], c)
  {
    assert s == s[..i] + s[i..];
    CountAppend(s[..i], s[i..], c);
    assert s[i..][1..] == s[i + 1..];
  }

  lemma {:induction false} CountAppend(a: string, b: string, c: char)
    ensures Count(a + b, c) == Count(a, c) + Count(b, c)
    decreases |a|
  {
    if |a| > 0 {
      assert (a + b)[1..] == a[1..] + b;
      CountAppend(a[1..], b, c);
    } else {
      assert a + b == b;
    }
  }

  /** `s.split(sep)[0]`. */
  function Head(s: string, sep: char): (r: string)
    ensures sep !in r && StartsWith(s, r)
    ensures sep !in s ==> r == s
    ensures sep in s ==> |r| < |s| && s[|r|] == sep
  {
    if sep in s then s[..IndexOf(s, sep)] else s
  }

  /** The head of `a + sep + b` is a, when a holds no separator. */
  lemma HeadOfJoined(a: string, b: string, sep: char)
    requires sep !in a
    ensures Head(a + [sep] + b, sep) == a
  {
    var s := a + [sep] + b;
    assert s[..|a|] == a;
    HeadAt(s, |a|, sep);
  }

  /** A string with a separator starts with its head and the separator. */
  lemma HeadPrefix(s: string, sep: char)
    requires sep in s
    ensures StartsWith(s, Head(s, sep) + [sep])
  {
    var h := Head(s, sep);
    assert s[..|h| + 1] == s[..|h|] + [s[|h|]];
  }

  /** A string starts with each of its prefixes. */
  lemma StartsWithJoined(a: string, b: string)
    ensures StartsWith(a + b, a)
  {
    assert (a + b)[..|a|] == a;
  }

  /** The head ends at the first separator. */
  lemma HeadAt(s: string, i: nat, sep: char)
    requires i < |s| && s[i] == sep && sep !in s[..i]
    ensures Head(s, sep) == s[..i]
  {
    var j := IndexOf(s, sep);
    forall k | 0 <= k < i
      ensures s[k] != sep
    {
      assert s[..i][k] == s[k];
    }
    forall k | 0 <= k < j
      ensures s[k] != sep
    {
      assert s[..j][k] == s[k];
    }
  }

  /** `s.split(sep)[-1]`. */
  function Last(s: string, sep: char): (r: string)
    ensures sep !in r
  {
    var parts := Split(s, sep);
    parts[|parts| - 1]
  }

  /** `sep.join(s.split(sep)[:2])`. */
  function Root(s: string, sep: char): string
  {
    var parts := Split(s, sep);
    Join(parts[..if |parts| < 2 then |parts| else 2], sep)
  }

  /** A string with two or more separators starts with its root, which holds exactly one. */
  lemma RootOfLong(s: string, sep: char)
    requires Count(s, sep) > 1
    ensures StartsWith(s, Root(s, sep)) && Count(Root(s, sep), sep) == 1
  {
    var parts := Split(s, sep);
    SplitCount(s, sep);
    JoinSplit(s, sep);
    JoinThree(parts, sep);
    var root := parts[0] + [sep] + parts[1];
    assert Root(s, sep) == root;
    assert s[..|root|] == root;
    CountPair(parts[0], parts[1], sep);
  }

  /** A join of three or more pieces begins with the join of the first two. */
  lemma JoinThree(parts: seq<string>, sep: char)
    requires |parts| >= 3
    ensures Join(parts[..2], sep) == parts[0] + [sep] + parts[1]
    ensures Join(parts, sep) == (parts[0] + [sep] + parts[1]) + ([sep] + Join(parts[2..], sep))
  {
    var a, b, rest := parts[0], parts[1], parts[2..];
    var j := Join(rest, sep);
    assert parts == [a] + ([b] + rest);
    JoinCons(b, rest, sep);
    JoinCons(a, [b] + rest, sep);
    assert a + [sep] + (b + [sep] + j) == (a + [sep] + b) + ([sep] + j);
    assert parts[..2] == [a] + [b];
    JoinCons(a, [b], sep);
  }

  /** Two separator-free pieces joined by one separator hold exactly one. */
  lemma CountPair(a: string, b: string, sep: char)
    requires sep !in a && sep !in b
    ensures Count(a + [sep] + b, sep) == 1
  {
    CountJoined(a, b, sep);
  }

  /** Counting across one separator. */
  lemma CountJoined(a: string, b: string, sep: char)
    ensures Count(a + [sep] + b, sep) == Count(a, sep) + 1 + Count(b, sep)
  {
    CountAppend(a + [sep], b, sep);
    CountAppend(a, [sep], sep);
    assert Count([sep], sep) == 1;
  }

  /** `s.lstrip(c)`. */
  function StripLeft(s: string, c: char): (r: string)
    ensures |r| <= |s| && r == s[|s| - |r|..]
    ensures |r| > 0 ==> r[0] != c
    ensures forall k :: 0 <= k < |s| - |r| ==> s[k] == c
  {
    if |s| > 0 && s[0] == c then StripLeft(s[1..], c) else s
  }

  /** `s.rstrip(c)`. */
  function StripRight(s: string, c: char): (r: string)
    ensures |r| <= |s| && r == s[..|r|]
    ensures |r| > 0 ==> r[|r| - 1] != c
    ensures forall k :: |r| <= k < |s| ==> s[k] == c
  {
    if |s| > 0 && s[|s| - 1] == c then StripRight(s[..|s| - 1], c) else s
  }

  /** The number of leading c's of s. */
  function Lead(s: string, c: char): (n: nat)
    ensures n <= |s| && forall k :: 0 <= k < n ==> s[k] == c
    ensures n < |s| ==> s[n] != c
  {
    |s| - |StripLeft(s, c)|
  }

  /** `s.strip(c)`: every leading and trailing c removed, and nothing else. */
  function Strip(s: string, c: char): (r: string)
    ensures |r| > 0 ==> r[0] != c && r[|r| - 1] != c
    ensures Lead(s, c) <= |s| - |r| && r == s[Lead(s, c)..Lead(s, c) + |r|]
    ensures forall k :: Lead(s, c) + |r| <= k < |s| ==> s[k] == c
  {
    var l := StripLeft(s, c);
    var r := StripRight(l, c);
    assert Lead(s, c) == |s| - |l|;
    StripSlices(s, l, r, c);
    r
  }

  /** Where the right-stripped suffix sits inside the original string. */
  lemma StripSlices(s: string, l: string, r: string, c: char)
    requires |l| <= |s| && l == s[|s| - |l|..]
    requires |r| <= |l| && r == l[..|r|]
    requires forall k :: |r| <= k < |l| ==> l[k] == c
    ensures r == s[|s| - |l|..|s| - |l| + |r|]
    ensures forall k :: |s| - |l| + |r| <= k < |s| ==> s[k] == c
  {
    var i := |s| - |l|;
    forall k | i + |r| <= k < |s|
      ensures s[k] == c
    {
      assert s[k] == l[k - i];
    }
  }

  function LowerChar(ch: char): (r: char)
    ensures !('A' <= r <= 'Z')
    ensures !('A' <= ch <= 'Z') ==> r == ch
  {
    if 'A' <= ch <= 'Z' then (ch as int - 'A' as int + 'a' as int) as char else ch
  }

  /** `s.lower()` on the ASCII letters. */
  function Lower(s: string): (r: string)
    ensures |r| == |s|
    ensures forall k :: 0 <= k < |s| ==> r[k] == LowerChar(s[k])
  {
    seq(|s|, k requires 0 <= k < |s| => LowerChar(s[k]))
  }

  /** `s.rindex(c)`: the last position of c. */
  function LastIndexOf(s: string, c: char): (i: nat)
    requires c in s
    ensures i < |s| && s[i] == c && c !in s[i + 1..]
  {
    if s[|s| - 1] == c then |s| - 1
    else
      assert c in s[..|s| - 1] by { var k :| 0 <= k < |s| && s[k] == c; assert s[..|s| - 1][k] == c; }
      var j := LastIndexOf(s[..|s| - 1], c);
      assert s[j + 1..] == s[..|s| - 1][j + 1..] + [s[|s| - 1]];
      j
  }

  /** `s.rsplit(c, maxsplit=1)[0]`: everything before the last c, or all of s. */
  function BeforeLast(s: string, c: char): (r: string)
    ensures StartsWith(s, r)
    ensures c !in s ==> r == s
    ensures c in s ==> |r| < |s| && s[|r|] == c && c !in s[|r| + 1..]
  {
    if c in s then s[..LastIndexOf(s, c)] else s
  }

  lemma ContainsTail(s: string, p: string)
    requires |s| > 0 && Contains(s[1..], p)
    ensures Contains(s, p)
  {
    var i :| 0 <= i <= |s[1..]| - |p| && OccursAt(s[1..], p, i);
    assert s[1..][i..i + |p|] == s[i + 1..i + 1 + |p|];
    assert OccursAt(s, p, i + 1);
  }

  /** `s.replace(pat, rep)`: occurrences replaced left to right without overlap. */
  function Replace(s: string, pat: string, rep: string): (r: string)
    requires |pat| > 0
    ensures !Contains(s, pat) ==> r == s
    decreases |s|
  {
    if |s| < |pat| then s
    else if s[..|pat|] == pat then
      assert OccursAt(s, pat, 0);
      rep + Replace(s[|pat|..], pat, rep)
    else
      var t := Replace(s[1..], pat, rep);
      assert !Contains(s, pat) ==> !Contains(s[1..], pat) by {
        if Contains(s[1..], pat) {
          ContainsTail(s, pat);
        }
      }
      assert !Contains(s, pat) ==> [s[0]] + s[1..] == s;
      [s[0]] + t
  }
}
