/** The string helpers of Go's `strings` package that the client relies on:
    `TrimSpace`, `Join` and (as the inverse of `Join`) `Split`. */
module Text {

  /** Go's `unicode.IsSpace`: the ASCII blanks, NEL, NBSP and the other
      characters with the Unicode White_Space property. */
  predicate IsSpace(c: char) {
    || c == '\t' || c == '\n' || c == '\U{000B}' || c == '\U{000C}' || c == '\r' || c == ' '
    || c == '\U{0085}' || c == '\U{00A0}' || c == '\U{1680}'
    || ('\U{2000}' <= c <= '\U{200A}')
    || c == '\U{2028}' || c == '\U{2029}' || c == '\U{202F}' || c == '\U{205F}' || c == '\U{3000}'
  }

  predicate AllSpace(s: string) {
    forall i :: 0 <= i < |s| ==> IsSpace(s[i])
  }

  /** `t` occurs in `s` as a contiguous block. */
  ghost predicate InfixOf(t: string, s: string) {
    exists k :: 0 <= k <= |s| && t <= s[k..]
  }

  /** Drops leading white space. */
  function TrimLeft(s: string): (t: string)
    ensures |t| <= |s| && t == s[|s| - |t|..]
    ensures t == [] || !IsSpace(t[0])
    ensures AllSpace(s[..|s| - |t|])
  {
    if |s| > 0 && IsSpace(s[0]) then
      var u := s[1..];
      var t := TrimLeft(u);
      assert u[|u| - |t|..] == s[|s| - |t|..];
      assert AllSpace(s[..|s| - |t|]) by {
        forall i | 0 <= i < |s| - |t|
          ensures IsSpace(s[i])
        {
          if i > 0 {
            assert s[i] == u[..|u| - |t|][i - 1];
          }
        }
      }
      t
    else s
  }

  /** Drops trailing white space. */
  function TrimRight(s: string): (t: string)
    ensures |t| <= |s| && t == s[..|t|]
    ensures t == [] || !IsSpace(t[|t| - 1])
    ensures AllSpace(s[|t|..])
    ensures |s| > 0 && !IsSpace(s[0]) ==> |t| > 0
  {
    if |s| > 0 && IsSpace(s[|s| - 1]) then
      var u := s[..|s| - 1];
      var t := TrimRight(u);
      assert u[..|t|] == s[..|t|];
      assert AllSpace(s[|t|..]) by {
        forall i | 0 <= i < |s| - |t|
          ensures IsSpace(s[|t|..][i])
        {
          if |t| + i < |u| {
            assert s[|t|..][i] == u[|t|..][i];
          }
        }
      }
      assert |s| > 1 ==> u[0] == s[0];
      t
    else s
  }

  /** Go's `strings.TrimSpace`: the block of `s` left after removing white
      space at both ends; it is empty exactly when `s` is all white space.
      `TrimSpaceCutsSpace` adds that what is removed is white space. */
  function TrimSpace(s: string): (t: string)
    ensures InfixOf(t, s)
    ensures t == [] || (!IsSpace(t[0]) && !IsSpace(t[|t| - 1]))
    ensures t == [] <==> AllSpace(s)
  {
    var l := TrimLeft(s);
    var t := TrimRight(l);
    assert InfixOf(t, s) by {
      assert t <= s[|s| - |l|..];
    }
    assert t == [] ==> AllSpace(s) by {
      if t == [] {
        assert l == [];
        assert s[..|s| - |l|] == s;
      }
    }
    t
  }

  /** A string whose head and whose tail beyond a prefix `t` of the rest are
      white space is `t` with white space cut off at both ends. */
  lemma SplitAround(s: string, l: string, t: string)
    requires |l| <= |s| && l == s[|s| - |l|..] && AllSpace(s[..|s| - |l|])
    requires |t| <= |l| && t == l[..|t|] && AllSpace(l[|t|..])
    ensures exists p, q :: s == p + t + q && AllSpace(p) && AllSpace(q)
  {
    assert s == s[..|s| - |l|] + l;
    assert l == t + l[|t|..];
    assert s == s[..|s| - |l|] + t + l[|t|..];
  }

  /** What `TrimSpace` removes at either end is white space. */
  lemma TrimSpaceCutsSpace(s: string)
    ensures exists p, q :: s == p + TrimSpace(s) + q && AllSpace(p) && AllSpace(q)
  {
    var l := TrimLeft(s);
    var t := TrimRight(l);
    assert TrimSpace(s) == t;
    SplitAround(s, l, t);
  }

  lemma TrimLeftOfTrimmed(s: string)
    requires s == [] || !IsSpace(s[0])
    ensures TrimLeft(s) == s
  {
  }

  lemma TrimRightOfTrimmed(s: string)
    requires s == [] || !IsSpace(s[|s| - 1])
    ensures TrimRight(s) == s
  {
  }

  /** Trimming twice is trimming once. */
  lemma TrimSpaceIdempotent(s: string)
    ensures TrimSpace(TrimSpace(s)) == TrimSpace(s)
  {
    var t := TrimSpace(s);
    TrimLeftOfTrimmed(t);
    TrimRightOfTrimmed(t);
  }

  /** Go's `strings.Join`. */
  function Join(parts: seq<string>, sep: string): (r: string)
  {
    if |parts| == 0 then ""
    else if |parts| == 1 then parts[0]
    else parts[0] + sep + Join(parts[1..], sep)
  }

  /** The first part opens a join and the last one closes it; no parts join to "". */
  lemma {:induction false} JoinEnds(parts: seq<string>, sep: string)
    ensures |parts| == 0 ==> Join(parts, sep) == ""
    ensures |parts| > 0 ==> parts[0] <= Join(parts, sep)
    ensures |parts| > 0 ==>
      |parts[|parts| - 1]| <= |Join(parts, sep)| &&
      Join(parts, sep)[|Join(parts, sep)| - |parts[|parts| - 1]|..] == parts[|parts| - 1]
  {
    if |parts| > 1 {
      var rest := Join(parts[1..], sep);
      JoinEnds(parts[1..], sep);
      assert Join(parts, sep) == parts[0] + sep + rest;
      assert parts[1..][|parts[1..]| - 1] == parts[|parts| - 1];
    }
  }

  /** Joining a list whose last element is itself a non-empty join equals
      joining the concatenated lists. */
  lemma {:induction false} JoinNested(a: seq<string>, b: seq<string>, sep: string)
    requires |b| > 0
    ensures Join(a + [Join(b, sep)], sep) == Join(a + b, sep)
  {
    if |a| == 0 {
      assert a + [Join(b, sep)] == [Join(b, sep)];
      assert a + b == b;
    } else {
      JoinNested(a[1..], b, sep);
      assert (a + [Join(b, sep)])[1..] == a[1..] + [Join(b, sep)];
      assert (a + b)[1..] == a[1..] + b;
    }
  }

  /** The position of the first `c` in `s`. */
  function IndexOf(s: string, c: char): (i: nat)
    requires c in s
    ensures i < |s| && s[i] == c && c !in s[..i]
  {
    if s[0] == c then 0 else 1 + IndexOf(s[1..], c)
  }

  /** Go's `strings.Split` with a one-character separator. */
  function Split(s: string, c: char): (parts: seq<string>)
    ensures |parts| >= 1
    decreases |s|
  {
    if c !in s then [s]
    else
      var i := IndexOf(s, c);
      [s[..i]] + Split(s[i + 1..], c)
  }

  /** The first separator of `p + [c] + rest` is the one after `p` when `p` has none. */
  lemma {:induction false} IndexOfAfter(p: string, c: char, rest: string)
    requires c !in p
    ensures c in p + [c] + rest && IndexOf(p + [c] + rest, c) == |p|
  {
    var s := p + [c] + rest;
    assert s[|p|] == c;
    if |p| > 0 {
      IndexOfAfter(p[1..], c, rest);
      assert s[1..] == p[1..] + [c] + rest;
    }
  }

  /** Splitting cuts at the first separator. */
  lemma SplitFirst(p: string, c: char, rest: string)
    requires c !in p
    ensures Split(p + [c] + rest, c) == [p] + Split(rest, c)
  {
    var s := p + [c] + rest;
    IndexOfAfter(p, c, rest);
    assert s[..|p|] == p;
    assert s[|p| + 1..] == rest;
  }

  /** Splitting at the separator undoes joining non-empty lists of parts that
      do not contain it. */
  lemma {:induction false} SplitJoin(parts: seq<string>, c: char)
    requires |parts| >= 1
    requires forall i :: 0 <= i < |parts| ==> c !in parts[i]
    ensures Split(Join(parts, [c]), c) == parts
  {
    if |parts| > 1 {
      var rest := Join(parts[1..], [c]);
      assert Join(parts, [c]) == parts[0] + [c] + rest;
      SplitFirst(parts[0], c, rest);
      assert forall i :: 0 <= i < |parts[1..]| ==> c !in parts[1..][i] by {
        forall i | 0 <= i < |parts[1..]| ensures c !in parts[1..][i] {
          assert parts[1..][i] == parts[i + 1];
        }
      }
      SplitJoin(parts[1..], c);
      assert parts == [parts[0]] + parts[1..];
    }
  }

  /** Joining the pieces of a split gives back the original string. With
      `SplitJoin` this makes `Split` an exact inverse of `Join` on non-empty
      lists of separator-free parts. */
  lemma {:induction false} JoinSplit(s: string, c: char)
    ensures Join(Split(s, c), [c]) == s
    decreases |s|
  {
    if c in s {
      var i := IndexOf(s, c);
      JoinSplit(s[i + 1..], c);
      var tail := Split(s[i + 1..], c);
      assert Split(s, c)[1..] == tail;
      assert s == s[..i] + [c] + s[i + 1..];
    }
  }
}
