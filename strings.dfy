/**
 * The parts of Python's `str` semantics that the chatbot relies on: character
 * classes, deleting characters (what `re.sub` with a one-character pattern and
 * an empty replacement does) and `str.strip()`.
 *
 * Python decides `\w`, `\s` and `str.lower()` from its Unicode tables. Those
 * tables are not part of this model: they are the fields of `Tables`, and every
 * result below holds for any choice of them.
 */
module Strings {

  /** Python's Unicode tables, left abstract.
      `isWord` is the regular-expression class `\w`; `isSpace` is both `\s` and
      the set of characters `str.strip()` removes (CPython consults the same
      whitespace table for both); `lower` is `str.lower()`, which may change the
      length of a string, so it is a function on strings, not on characters. */
  datatype Tables = Tables(isWord: char -> bool, isSpace: char -> bool, lower: string -> string)

  /** The characters of `s` that satisfy `keep`, in their original order. */
  function Filter(keep: char -> bool, s: string): (r: string)
    ensures |r| <= |s|
    ensures forall i :: 0 <= i < |r| ==> keep(r[i])
    decreases |s|
  {
    if s == [] then []
    else if keep(s[0]) then [s[0]] + Filter(keep, s[1..])
    else Filter(keep, s[1..])
  }

  /** `r` can be obtained from `s` by deleting characters. */
  predicate IsSubsequence(r: string, s: string)
    decreases |s|
  {
    r == [] || (s != [] && ((r[0] == s[0] && IsSubsequence(r[1..], s[1..])) || IsSubsequence(r, s[1..])))
  }

  lemma {:induction false} SubsequenceReflexive(s: string)
    ensures IsSubsequence(s, s)
    decreases |s|
  {
    if s != [] {
      SubsequenceReflexive(s[1..]);
    }
  }

  lemma {:induction false} SubsequenceTransitive(a: string, b: string, c: string)
    requires IsSubsequence(a, b) && IsSubsequence(b, c)
    ensures IsSubsequence(a, c)
    decreases |c|
  {
    if a != [] {
      if b[0] == c[0] && IsSubsequence(b[1..], c[1..]) {
        if a[0] == b[0] && IsSubsequence(a[1..], b[1..]) {
          SubsequenceTransitive(a[1..], b[1..], c[1..]);
        } else {
          SubsequenceTransitive(a, b[1..], c[1..]);
        }
      } else {
        SubsequenceTransitive(a, b, c[1..]);
      }
    }
  }

  /** Deleting characters inserts nothing: every character of a subsequence
      occurs in the original at least as often. */
  lemma {:induction false} SubsequenceMultiset(r: string, s: string)
    requires IsSubsequence(r, s)
    ensures multiset(r) <= multiset(s)
    decreases |s|
  {
    if r != [] {
      assert s == [s[0]] + s[1..];
      assert multiset(s) == multiset([s[0]]) + multiset(s[1..]);
      if r[0] == s[0] && IsSubsequence(r[1..], s[1..]) {
        SubsequenceMultiset(r[1..], s[1..]);
        assert r == [r[0]] + r[1..];
        assert multiset(r) == multiset([r[0]]) + multiset(r[1..]);
      } else {
        SubsequenceMultiset(r, s[1..]);
      }
    }
  }

  /** A property every character of `s` has, every character of a
      subsequence of `s` has too. */
  lemma {:induction false} SubsequenceInherits(p: char -> bool, r: string, s: string)
    requires IsSubsequence(r, s)
    requires forall i :: 0 <= i < |s| ==> p(s[i])
    ensures forall i :: 0 <= i < |r| ==> p(r[i])
    decreases |s|
  {
    if r != [] {
      if r[0] == s[0] && IsSubsequence(r[1..], s[1..]) {
        SubsequenceInherits(p, r[1..], s[1..]);
        assert forall i :: 1 <= i < |r| ==> r[i] == r[1..][i - 1];
      } else {
        SubsequenceInherits(p, r, s[1..]);
      }
    }
  }

  lemma {:induction false} PrefixIsSubsequence(s: string, j: nat)
    requires j <= |s|
    ensures IsSubsequence(s[..j], s)
    decreases |s|
  {
    if j > 0 {
      PrefixIsSubsequence(s[1..], j - 1);
      assert s[..j][1..] == s[1..][..j - 1];
    }
  }

  lemma {:induction false} SuffixIsSubsequence(s: string, i: nat)
    requires i <= |s|
    ensures IsSubsequence(s[i..], s)
    decreases |s|
  {
    if i == 0 {
      SubsequenceReflexive(s);
    } else {
      SuffixIsSubsequence(s[1..], i - 1);
      assert s[1..][i - 1..] == s[i..];
    }
  }

  /** Filtering only deletes characters. */
  lemma {:induction false} FilterIsSubsequence(keep: char -> bool, s: string)
    ensures IsSubsequence(Filter(keep, s), s)
    decreases |s|
  {
    if s != [] {
      FilterIsSubsequence(keep, s[1..]);
    }
  }

  /** Filtering keeps every occurrence of a kept character and none of the others. */
  lemma {:induction false} FilterCount(keep: char -> bool, s: string, c: char)
    ensures multiset(Filter(keep, s))[c] == if keep(c) then multiset(s)[c] else 0
    decreases |s|
  {
    if s == [] {
    } else {
      FilterCount(keep, s[1..], c);
      assert s == [s[0]] + s[1..];
      assert multiset(s) == multiset([s[0]]) + multiset(s[1..]);
      if keep(s[0]) {
        assert multiset(Filter(keep, s)) == multiset([s[0]]) + multiset(Filter(keep, s[1..]));
      }
    }
  }

  /** A string whose characters all pass the filter comes through unchanged. */
  lemma {:induction false} FilterKeepsAll(keep: char -> bool, s: string)
    requires forall i :: 0 <= i < |s| ==> keep(s[i])
    ensures Filter(keep, s) == s
    decreases |s|
  {
    if s != [] {
      FilterKeepsAll(keep, s[1..]);
    }
  }

  /** Neither end of `s` is whitespace. */
  predicate IsTrimmed(t: Tables, s: string)
  {
    s == [] || (!t.isSpace(s[0]) && !t.isSpace(s[|s| - 1]))
  }

  /** `str.lstrip()`: drops the leading whitespace, and only that. */
  function TrimStart(t: Tables, s: string): (r: string)
    ensures |r| <= |s| && r == s[|s| - |r|..]
    ensures forall i :: 0 <= i < |s| - |r| ==> t.isSpace(s[i])
    ensures r == [] || !t.isSpace(r[0])
    decreases |s|
  {
    if s != [] && t.isSpace(s[0]) then TrimStart(t, s[1..]) else s
  }

  /** `str.rstrip()`: drops the trailing whitespace, and only that. */
  function TrimEnd(t: Tables, s: string): (r: string)
    ensures |r| <= |s| && r == s[..|r|]
    ensures forall i :: |r| <= i < |s| ==> t.isSpace(s[i])
    ensures r == [] || !t.isSpace(r[|r| - 1])
    decreases |s|
  {
    if s != [] && t.isSpace(s[|s| - 1]) then TrimEnd(t, s[..|s| - 1]) else s
  }

  /** `str.strip()` with no argument. */
  function Strip(t: Tables, s: string): (r: string)
    ensures IsTrimmed(t, r)
  {
    TrimEnd(t, TrimStart(t, s))
  }

  /** Every character of `a` is whitespace. */
  predicate AllSpace(t: Tables, a: string)
  {
    forall k :: 0 <= k < |a| ==> t.isSpace(a[k])
  }

  /** Cutting whitespace off the front of `s` and then off the back leaves a
      piece `s[i..j]` with only whitespace outside it. */
  lemma TwoCutsAreSlice(t: Tables, s: string, x: string, r: string)
    requires |x| <= |s| && x == s[|s| - |x|..] && AllSpace(t, s[..|s| - |x|])
    requires |r| <= |x| && r == x[..|r|] && AllSpace(t, x[|r|..])
    ensures exists i, j :: 0 <= i <= j <= |s| && r == s[i..j] && AllSpace(t, s[..i]) && AllSpace(t, s[j..])
  {
    var i := |s| - |x|;
    var j := i + |r|;
    assert s[j..] == x[|r|..];
    assert r == s[i..j];
  }

  /** What `strip` removes is whitespace at the two ends: the result is a
      contiguous piece of the input, and everything cut off is whitespace. */
  lemma StripIsSlice(t: Tables, s: string)
    ensures exists i, j :: 0 <= i <= j <= |s| && Strip(t, s) == s[i..j] && AllSpace(t, s[..i]) && AllSpace(t, s[j..])
  {
    var x := TrimStart(t, s);
    var r := TrimEnd(t, x);
    assert AllSpace(t, s[..|s| - |x|]);
    assert AllSpace(t, x[|r|..]);
    TwoCutsAreSlice(t, s, x, r);
  }

  lemma {:induction false} StripIsSubsequence(t: Tables, s: string)
    ensures IsSubsequence(Strip(t, s), s)
  {
    var x := TrimStart(t, s);
    SuffixIsSubsequence(s, |s| - |x|);
    PrefixIsSubsequence(x, |Strip(t, s)|);
    SubsequenceTransitive(Strip(t, s), x, s);
  }

  /** Whitespace around `b` does not change how often a non-whitespace
      character occurs. */
  lemma SpaceDoesNotCount(t: Tables, a: string, b: string, c: char)
    requires AllSpace(t, a)
    requires !t.isSpace(c)
    ensures multiset(a + b)[c] == multiset(b)[c] == multiset(b + a)[c]
  {
    assert c !in a;
    assert multiset(a + b) == multiset(a) + multiset(b) == multiset(b + a);
  }

  /** Cutting whitespace off both ends of `s` leaves `r` with as many
      occurrences of each non-whitespace character as `s`. */
  lemma TrimmedEndsCount(t: Tables, s: string, i: nat, j: nat, c: char)
    requires i <= j <= |s|
    requires AllSpace(t, s[..i]) && AllSpace(t, s[j..])
    requires !t.isSpace(c)
    ensures multiset(s[i..j])[c] == multiset(s)[c]
  {
    assert s == s[..i] + (s[i..j] + s[j..]);
    SpaceDoesNotCount(t, s[j..], s[i..j], c);
    SpaceDoesNotCount(t, s[..i], s[i..j] + s[j..], c);
  }

  /** `strip` keeps every occurrence of every non-whitespace character. */
  lemma {:induction false} StripKeepsNonSpace(t: Tables, s: string, c: char)
    requires !t.isSpace(c)
    ensures multiset(Strip(t, s))[c] == multiset(s)[c]
  {
    StripIsSlice(t, s);
    var i, j :| 0 <= i <= j <= |s| && Strip(t, s) == s[i..j] && AllSpace(t, s[..i]) && AllSpace(t, s[j..]);
    TrimmedEndsCount(t, s, i, j, c);
  }

  /** `strip` changes exactly the strings that have whitespace at an end. */
  lemma StripFixedPoint(t: Tables, s: string)
    ensures Strip(t, s) == s <==> IsTrimmed(t, s)
  {
    if IsTrimmed(t, s) {
      assert TrimStart(t, s) == s;
    }
  }
}
