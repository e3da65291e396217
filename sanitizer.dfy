/**
 * `sanitize_response`: the filter applied to the language model's answer before
 * it is sent to the chat. Three steps: delete every `*`, delete every character
 * that is not a word character, whitespace or one of `, . ! ? % € $ £ -`, and
 * strip the whitespace at both ends.
 */
module Sanitizer {
  import opened Strings

  /** The punctuation and currency signs the second substitution keeps. */
  const Punctuation: set<char> := {',', '.', '!', '?', '%', '€', '$', '£', '-'}

  predicate NotStar(c: char)
  {
    c != '*'
  }

  /** The complement of the class `[^\w\s,.!?%€$£-]`. */
  predicate Allowed(t: Tables, c: char)
    ensures t.isWord(c) || t.isSpace(c) ==> Allowed(t, c)
    ensures c in Punctuation ==> Allowed(t, c)
    ensures !t.isWord(c) && !t.isSpace(c) && c !in Punctuation ==> !Allowed(t, c)
  {
    t.isWord(c) || t.isSpace(c) || c in Punctuation
  }

  /** `Allowed` as a filter for `Filter`. */
  function Whitelist(t: Tables): char -> bool
  {
    c => Allowed(t, c)
  }

  /** First substitution: removes every asterisk. */
  function DropStars(s: string): (r: string)
    ensures '*' !in r
  {
    Filter(NotStar, s)
  }

  /** Second substitution: removes every character outside the whitelist. */
  function KeepAllowed(t: Tables, s: string): (r: string)
    ensures forall i :: 0 <= i < |r| ==> Allowed(t, r[i])
  {
    Filter(Whitelist(t), s)
  }

  /** What is deleted from a whitelisted string without asterisks is still
      whitelisted and without asterisks. */
  lemma StaysWhitelisted(t: Tables, r: string, kept: string, stars: string)
    requires '*' !in stars && IsSubsequence(kept, stars)
    requires (forall i :: 0 <= i < |kept| ==> Allowed(t, kept[i])) && IsSubsequence(r, kept)
    ensures '*' !in r && forall i :: 0 <= i < |r| ==> Allowed(t, r[i])
  {
    SubsequenceInherits(NotStar, kept, stars);
    SubsequenceInherits(c => NotStar(c) && Allowed(t, c), r, kept);
  }

  /** The whole of `sanitize_response`. Its answer contains only whitelisted
      characters, no asterisk, and no whitespace at either end. */
  function Sanitize(t: Tables, s: string): (r: string)
    ensures '*' !in r
    ensures forall i :: 0 <= i < |r| ==> Allowed(t, r[i])
    ensures IsTrimmed(t, r)
  {
    var stars := DropStars(s);
    var kept := KeepAllowed(t, stars);
    var r := Strip(t, kept);
    assert IsSubsequence(kept, stars) by {
      FilterIsSubsequence(Whitelist(t), stars);
    }
    assert IsSubsequence(r, kept) by {
      StripIsSubsequence(t, kept);
    }
    StaysWhitelisted(t, r, kept, stars);
    r
  }

  /** Exactly the strings `Sanitize` leaves alone. */
  predicate IsClean(t: Tables, s: string)
  {
    '*' !in s && (forall i :: 0 <= i < |s| ==> Allowed(t, s[i])) && IsTrimmed(t, s)
  }

  /** Sanitising only deletes characters: what is kept keeps its order and
      nothing is inserted. */
  lemma {:induction false} SanitizeIsSubsequence(t: Tables, s: string)
    ensures IsSubsequence(Sanitize(t, s), s)
  {
    var stars := DropStars(s);
    var kept := KeepAllowed(t, stars);
    FilterIsSubsequence(NotStar, s);
    FilterIsSubsequence(Whitelist(t), stars);
    StripIsSubsequence(t, kept);
    SubsequenceTransitive(kept, stars, s);
    SubsequenceTransitive(Sanitize(t, s), kept, s);
  }

  /** Every whitelisted character other than whitespace survives sanitising
      exactly as often as it occurs in the input; every other character other
      than whitespace is gone. */
  lemma {:induction false} SanitizeCounts(t: Tables, s: string, c: char)
    requires !t.isSpace(c)
    ensures multiset(Sanitize(t, s))[c] == if NotStar(c) && Allowed(t, c) then multiset(s)[c] else 0
  {
    var stars := DropStars(s);
    var kept := KeepAllowed(t, stars);
    FilterCount(NotStar, s, c);
    FilterCount(Whitelist(t), stars, c);
    StripKeepsNonSpace(t, kept, c);
  }

  /** What the final `strip` removes: the answer is a contiguous piece of the
      filtered text, with only whitespace cut off at either end. So all the
      whitespace inside the answer is kept. */
  lemma {:induction false} SanitizeIsSliceOfFiltered(t: Tables, s: string)
    ensures var kept := KeepAllowed(t, DropStars(s));
      exists i, j :: 0 <= i <= j <= |kept| && Sanitize(t, s) == kept[i..j] &&
        AllSpace(t, kept[..i]) && AllSpace(t, kept[j..])
  {
    StripIsSlice(t, KeepAllowed(t, DropStars(s)));
  }

  /** A string is left unchanged by sanitising exactly when it is clean. */
  lemma {:induction false} SanitizeFixedPoint(t: Tables, s: string)
    ensures Sanitize(t, s) == s <==> IsClean(t, s)
  {
    if IsClean(t, s) {
      assert forall i :: 0 <= i < |s| ==> NotStar(s[i]);
      FilterKeepsAll(NotStar, s);
      FilterKeepsAll(Whitelist(t), s);
      StripFixedPoint(t, s);
    }
  }

  /** Sanitising twice is the same as sanitising once. */
  lemma {:induction false} SanitizeIdempotent(t: Tables, s: string)
    ensures Sanitize(t, Sanitize(t, s)) == Sanitize(t, s)
  {
    SanitizeFixedPoint(t, Sanitize(t, s));
  }
}
