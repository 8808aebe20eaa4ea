/** String helpers standing for the .NET string calls the core relies on:
    ToLower, StartsWith, Replace, Split and String.Join. */
module Strings {

  /** Lower-casing of one character, restricted to ASCII letters. */
  function LowerChar(c: char): char
  {
    if 'A' <= c <= 'Z' then (c as int + 32) as char else c
  }

  /** String.ToLower on ASCII text. */
  function Lower(s: string): (r: string)
    ensures |r| == |s|
    ensures forall i :: 0 <= i < |s| ==> r[i] == LowerChar(s[i])
  {
    if s == [] then [] else [LowerChar(s[0])] + Lower(s[1..])
  }

  /** Lower-casing twice is lower-casing once. */
  lemma LowerIdempotent(s: string)
    ensures Lower(Lower(s)) == Lower(s)
  {
    var l := Lower(s);
    assert forall i :: 0 <= i < |l| ==> LowerChar(l[i]) == l[i];
  }

  predicate StartsWith(s: string, prefix: string)
  {
    |prefix| <= |s| && s[..|prefix|] == prefix
  }

  /** s.Replace(c.ToString(), ""): every occurrence of c deleted. */
  function RemoveChar(s: string, c: char): (r: string)
    ensures |r| <= |s|
  {
    if s == [] then []
    else (if s[0] == c then [] else [s[0]]) + RemoveChar(s[1..], c)
  }

  /** Replace changes nothing when the character does not occur. */
  lemma {:induction false} RemoveCharAbsent(s: string, c: char)
    requires c !in s
    ensures RemoveChar(s, c) == s
  {
    if s != [] {
      RemoveCharAbsent(s[1..], c);
      assert [s[0]] + s[1..] == s;
    }
  }

  /** The characters of s outside cs, in their original order. */
  function Strip(s: string, cs: set<char>): (r: string)
    ensures |r| <= |s|
    ensures forall i :: 0 <= i < |r| ==> r[i] in s && r[i] !in cs
  {
    if s == [] then []
    else (if s[0] in cs then [] else [s[0]]) + Strip(s[1..], cs)
  }

  lemma {:induction false} RemoveCharIsStrip(s: string, c: char)
    ensures RemoveChar(s, c) == Strip(s, {c})
  {
    if s != [] {
      RemoveCharIsStrip(s[1..], c);
    }
  }

  /** Stripping one set and then another is stripping their union. */
  lemma {:induction false} StripStrip(s: string, a: set<char>, b: set<char>)
    ensures Strip(Strip(s, a), b) == Strip(s, a + b)
  {
    if s != [] {
      StripStrip(s[1..], a, b);
      if s[0] in a {
        assert Strip(s, a) == Strip(s[1..], a);
      } else {
        assert Strip(s, a) == [s[0]] + Strip(s[1..], a);
        assert Strip(s, a)[1..] == Strip(s[1..], a);
      }
    }
  }

  /** Deleting one more character after a strip is stripping the larger set. */
  lemma RemoveAfterStrip(s: string, cs: set<char>, c: char)
    ensures RemoveChar(Strip(s, cs), c) == Strip(s, cs + {c})
  {
    RemoveCharIsStrip(Strip(s, cs), c);
    StripStrip(s, cs, {c});
  }

  /** Chained Replace calls deleting each character of cs in turn. */
  function RemoveEach(s: string, cs: seq<char>): string
    decreases |cs|
  {
    if cs == [] then s else RemoveEach(RemoveChar(s, cs[0]), cs[1..])
  }

  /** Deleting the characters one after another deletes all of them. */
  lemma {:induction false} RemoveEachIsStrip(s: string, cs: seq<char>)
    ensures RemoveEach(s, cs) == Strip(s, set c | c in cs)
    decreases |cs|
  {
    if cs == [] {
      assert (set c | c in cs) == {};
      StripKeeps(s, {});
    } else {
      RemoveEachIsStrip(RemoveChar(s, cs[0]), cs[1..]);
      RemoveCharIsStrip(s, cs[0]);
      StripStrip(s, {cs[0]}, set c | c in cs[1..]);
      assert {cs[0]} + (set c | c in cs[1..]) == set c | c in cs;
    }
  }

  /** Strip depends only on which characters of s are in the set. */
  lemma {:induction false} StripAgrees(s: string, a: set<char>, b: set<char>)
    requires forall i :: 0 <= i < |s| ==> (s[i] in a <==> s[i] in b)
    ensures Strip(s, a) == Strip(s, b)
  {
    if s != [] {
      StripAgrees(s[1..], a, b);
    }
  }

  /** Strip distributes over concatenation. */
  lemma {:induction false} StripConcat(a: string, b: string, cs: set<char>)
    ensures Strip(a + b, cs) == Strip(a, cs) + Strip(b, cs)
  {
    if a != [] {
      StripConcat(a[1..], b, cs);
      assert (a + b)[1..] == a[1..] + b;
    } else {
      assert a + b == b;
    }
  }

  /** A string with none of the characters is its own strip. */
  lemma {:induction false} StripKeeps(s: string, cs: set<char>)
    requires forall i :: 0 <= i < |s| ==> s[i] !in cs
    ensures Strip(s, cs) == s
  {
    if s != [] {
      StripKeeps(s[1..], cs);
    }
  }

  /** pat occurs in s at index i. */
  predicate OccursAt(s: string, pat: string, i: nat)
  {
    i + |pat| <= |s| && s[i..i + |pat|] == pat
  }

  /** Replace deletes nothing from a string without an occurrence of pat. */
  lemma {:induction false} RemoveAllAbsent(s: string, pat: string)
    requires pat != []
    requires forall i: nat :: !OccursAt(s, pat, i)
    ensures RemoveAll(s, pat) == s
    decreases |s|
  {
    if |s| >= |pat| {
      assert !OccursAt(s, pat, 0);
      forall i: nat
        ensures !OccursAt(s[1..], pat, i)
      {
        if i + |pat| <= |s[1..]| {
          assert s[1..][i..i + |pat|] == s[i + 1..i + 1 + |pat|];
          assert !OccursAt(s, pat, i + 1);
        }
      }
      RemoveAllAbsent(s[1..], pat);
      assert [s[0]] + s[1..] == s;
    }
  }

  /** s.Split(c)[0]: the text before the first c, or all of s. */
  function BeforeFirst(s: string, c: char): (r: string)
    ensures |r| <= |s| && r == s[..|r|]
    ensures c !in r
    ensures |r| < |s| ==> s[|r|] == c
  {
    if s == [] || s[0] == c then [] else [s[0]] + BeforeFirst(s[1..], c)
  }

  /** s.Replace(pat, ""): left-to-right, non-overlapping deletion of pat. */
  function RemoveAll(s: string, pat: string): string
    requires pat != []
    decreases |s|
  {
    if |s| < |pat| then s
    else if s[..|pat|] == pat then RemoveAll(s[|pat|..], pat)
    else [s[0]] + RemoveAll(s[1..], pat)
  }

  /** String.Join(sep, xs). */
  function Join(sep: string, xs: seq<string>): string
  {
    if xs == [] then ""
    else if |xs| == 1 then xs[0]
    else xs[0] + sep + Join(sep, xs[1..])
  }

  lemma {:induction false} JoinSnoc(sep: string, xs: seq<string>, x: string)
    requires xs != []
    ensures Join(sep, xs + [x]) == Join(sep, xs) + sep + x
  {
    if |xs| > 1 {
      JoinSnoc(sep, xs[1..], x);
      assert (xs + [x])[1..] == xs[1..] + [x];
    }
  }

  /** s.Split(c): the pieces between occurrences of c (always at least one). */
  function Split(s: string, c: char): (r: seq<string>)
    ensures |r| >= 1
  {
    if s == [] then [""]
    else if s[0] == c then [""] + Split(s[1..], c)
    else var rest := Split(s[1..], c); [[s[0]] + rest[0]] + rest[1..]
  }

  lemma {:induction false} SplitNoSeparator(s: string, c: char)
    requires c !in s
    ensures Split(s, c) == [s]
  {
    if s != [] {
      SplitNoSeparator(s[1..], c);
      assert s[0] != c;
      assert [s[0]] + s[1..] == s;
    }
  }

  lemma {:induction false} SplitAtSeparator(a: string, c: char, b: string)
    requires c !in a
    ensures Split(a + [c] + b, c) == [a] + Split(b, c)
  {
    if a == [] {
      assert a + [c] + b == [c] + b;
    } else {
      SplitAtSeparator(a[1..], c, b);
      var w := a + [c] + b;
      assert w[0] == a[0] && a[0] != c;
      assert w[1..] == a[1..] + [c] + b;
      assert [a[0]] + a[1..] == a;
    }
  }

  /** Splitting a joined list gives the list back when no piece holds the separator. */
  lemma {:induction false} SplitJoin(xs: seq<string>, c: char)
    requires xs != []
    requires forall i :: 0 <= i < |xs| ==> c !in xs[i]
    ensures Split(Join([c], xs), c) == xs
  {
    if |xs| == 1 {
      SplitNoSeparator(xs[0], c);
    } else {
      var rest := xs[1..];
      assert forall i :: 0 <= i < |rest| ==> rest[i] == xs[i + 1];
      SplitJoin(rest, c);
      assert Join([c], xs) == xs[0] + [c] + Join([c], rest);
      SplitAtSeparator(xs[0], c, Join([c], rest));
      assert [xs[0]] + rest == xs;
    }
  }
}
