/** Strings as sequences of characters: whitespace stripping and substring
    containment, the two string operations the cluster detector relies on. */
module Text {

  /** The characters for which Python's `str.isspace()` holds, and hence the
      ones a bare `str.strip()` removes. */
  predicate IsSpace(c: char)
  {
    || ('\U{9}' <= c <= '\U{D}')
    || ('\U{1C}' <= c <= '\U{20}')
    || c == '\U{85}'
    || c == '\U{A0}'
    || c == '\U{1680}'
    || ('\U{2000}' <= c <= '\U{200A}')
    || c == '\U{2028}'
    || c == '\U{2029}'
    || c == '\U{202F}'
    || c == '\U{205F}'
    || c == '\U{3000}'
  }

  predicate AllSpace(s: string)
  {
    forall i | 0 <= i < |s| :: IsSpace(s[i])
  }

  predicate NoSpace(s: string)
  {
    forall i | 0 <= i < |s| :: !IsSpace(s[i])
  }

  /** `k` occurs in `s` starting at position `i`. */
  predicate OccursAt(s: string, k: string, i: int)
  {
    0 <= i <= |s| - |k| && s[i..i + |k|] == k
  }

  /** `k in s` for Python strings: `k` occurs in `s` as a contiguous block.
      As in Python, the empty string occurs in every string, and nothing
      longer than `s` occurs in it. */
  predicate Contains(s: string, k: string)
    ensures k == [] ==> Contains(s, k)
    ensures Contains(s, k) ==> |k| <= |s|
  {
    assert k == [] ==> OccursAt(s, k, 0);
    exists i | 0 <= i <= |s| - |k| :: OccursAt(s, k, i)
  }

  /** The number of whitespace characters `s` starts with. */
  function LeadingSpaces(s: string): (n: nat)
    ensures n <= |s|
    ensures forall i | 0 <= i < n :: IsSpace(s[i])
    ensures n < |s| ==> !IsSpace(s[n])
  {
    if |s| > 0 && IsSpace(s[0]) then 1 + LeadingSpaces(s[1..]) else 0
  }

  /** The number of whitespace characters `s` ends with. */
  function TrailingSpaces(s: string): (n: nat)
    ensures n <= |s|
    ensures forall i | |s| - n <= i < |s| :: IsSpace(s[i])
    ensures n < |s| ==> !IsSpace(s[|s| - n - 1])
  {
    if |s| > 0 && IsSpace(s[|s| - 1]) then 1 + TrailingSpaces(s[..|s| - 1]) else 0
  }

  /** Python's `s.strip()`: the result is the block of `s` between its
      leading and its trailing whitespace, and neither starts nor ends with
      whitespace. */
  function Strip(s: string): (r: string)
    ensures LeadingSpaces(s) + |r| <= |s| && r == s[LeadingSpaces(s)..LeadingSpaces(s) + |r|]
    ensures forall i | LeadingSpaces(s) + |r| <= i < |s| :: IsSpace(s[i])
    ensures r == [] || (!IsSpace(r[0]) && !IsSpace(r[|r| - 1]))
  {
    var a := LeadingSpaces(s);
    if a == |s| then []
    else
      var t := TrailingSpaces(s);
      assert a < |s| - t;
      s[a..|s| - t]
  }

  /** A string strips to nothing exactly when it is all whitespace. */
  lemma StripEmpty(s: string)
    ensures Strip(s) == [] <==> AllSpace(s)
  {
    var r, a := Strip(s), LeadingSpaces(s);
    if r != [] {
      assert s[a] == r[0];
    }
  }

  /** An occurrence inside the stripped string is an occurrence in the
      original. */
  lemma StripContainedIn(s: string, k: string)
    ensures Contains(Strip(s), k) ==> Contains(s, k)
  {
    var r, a := Strip(s), LeadingSpaces(s);
    if Contains(r, k) {
      var i :| 0 <= i <= |r| - |k| && OccursAt(r, k, i);
      OccurrenceFromBlock(s, a, r, k, i);
    }
  }

  /** An occurrence inside a block of `s` is an occurrence in `s`. */
  lemma OccurrenceFromBlock(s: string, a: nat, r: string, k: string, i: int)
    requires a + |r| <= |s| && r == s[a..a + |r|]
    requires OccursAt(r, k, i)
    ensures OccursAt(s, k, a + i)
  {
    assert forall t | 0 <= t < |k| :: k[t] == r[i + t] == s[a + i + t];
  }

  /** An occurrence in `s` that lies within a block of `s` is an occurrence
      in that block. */
  lemma OccurrenceInBlock(s: string, a: nat, b: nat, k: string, i: int)
    requires a <= i && i + |k| <= b <= |s|
    requires OccursAt(s, k, i)
    ensures OccursAt(s[a..b], k, i - a)
  {
    assert forall t | 0 <= t < |k| :: s[a..b][i - a + t] == s[i + t] == k[t];
  }

  /** An occurrence of a keyword that starts and ends with non-whitespace
      lies wholly between the leading and the trailing whitespace. */
  lemma OccurrenceInStrip(s: string, k: string, i: int)
    requires |k| > 0 && !IsSpace(k[0]) && !IsSpace(k[|k| - 1])
    requires OccursAt(s, k, i)
    ensures LeadingSpaces(s) <= i && OccursAt(Strip(s), k, i - LeadingSpaces(s))
  {
    var r, a := Strip(s), LeadingSpaces(s);
    var e := i + |k| - 1;
    assert s[i] == k[0] by { assert s[i..i + |k|][0] == s[i]; }
    assert s[e] == k[|k| - 1] by { assert s[i..i + |k|][|k| - 1] == s[e]; }
    assert a <= i;
    assert e < a + |r|;
    OccurrenceInBlock(s, a, a + |r|, k, i);
  }

  lemma ContainedInStrip(s: string, k: string)
    requires |k| > 0 && !IsSpace(k[0]) && !IsSpace(k[|k| - 1])
    ensures Contains(s, k) ==> Contains(Strip(s), k)
  {
    if Contains(s, k) {
      var i :| 0 <= i <= |s| - |k| && OccursAt(s, k, i);
      OccurrenceInStrip(s, k, i);
    }
  }

  /** Stripping never changes whether a keyword free of whitespace occurs. */
  lemma StripPreservesContains(s: string, k: string)
    requires NoSpace(k)
    ensures Contains(Strip(s), k) <==> Contains(s, k)
  {
    StripContainedIn(s, k);
    if |k| == 0 {
      assert OccursAt(Strip(s), k, 0);
    } else {
      ContainedInStrip(s, k);
    }
  }
}
