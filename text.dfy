/**
 * The two string operations the statistics engine applies to verb labels:
 * Python's `str.lower()` (restricted to ASCII) and the substring test `p in s`.
 */
module Text {

  /** ASCII lower-casing of one character; every other character is left as it is. */
  function LowerChar(c: char): char
  {
    if 'A' <= c <= 'Z' then (c as int + 32) as char else c
  }

  /** `s.lower()`, character by character. */
  function Lower(s: string): string
  {
    if s == [] then [] else [LowerChar(s[0])] + Lower(s[1..])
  }

  /** Lower-casing keeps the length and lower-cases every character in place. */
  lemma {:induction false} LowerPointwise(s: string)
    ensures |Lower(s)| == |s|
    ensures forall i :: 0 <= i < |s| ==> Lower(s)[i] == LowerChar(s[i])
  {
    if s != [] {
      LowerPointwise(s[1..]);
      assert forall i :: 1 <= i < |s| ==> Lower(s)[i] == Lower(s[1..])[i - 1];
    }
  }

  /** A string without capital letters is its own lower-case form. */
  lemma LowerIdentity(s: string)
    requires forall i :: 0 <= i < |s| ==> !('A' <= s[i] <= 'Z')
    ensures Lower(s) == s
  {
    LowerPointwise(s);
  }

  /** `p` occurs in `s` at offset `i`. */
  ghost predicate OccursAt(s: string, p: string, i: int)
  {
    0 <= i && i + |p| <= |s| && s[i..i + |p|] == p
  }

  /** Occurrences in `s[1..]` are the occurrences in `s` shifted left by one. */
  lemma OccursShift(s: string, p: string, i: int)
    requires |s| > 0 && i >= 0
    ensures OccursAt(s[1..], p, i) <==> OccursAt(s, p, i + 1)
  {
    if 0 <= i && i + |p| <= |s| - 1 {
      assert s[1..][i..i + |p|] == s[i + 1..i + 1 + |p|];
    }
  }

  /** Python's `p in s` on strings, by testing each offset from the left. */
  function Contains(s: string, p: string): bool
    decreases |s|
  {
    if |p| > |s| then false
    else if s[..|p|] == p then true
    else Contains(s[1..], p)
  }

  /** `Contains` is the substring test: it holds exactly when `p` occurs somewhere in `s`. */
  lemma {:induction false} ContainsIsSubstring(s: string, p: string)
    ensures Contains(s, p) <==> exists i :: OccursAt(s, p, i)
    decreases |s|
  {
    if |p| > |s| {
    } else if s[..|p|] == p {
      assert OccursAt(s, p, 0);
    } else {
      ContainsIsSubstring(s[1..], p);
      if Contains(s[1..], p) {
        var i :| OccursAt(s[1..], p, i);
        OccursShift(s, p, i);
      }
      if exists i :: OccursAt(s, p, i) {
        var i :| OccursAt(s, p, i);
        assert i != 0;
        OccursShift(s, p, i - 1);
      }
    }
  }

  /** Python's `any(v in s for v in verbs)`. */
  predicate ContainsAny(s: string, verbs: seq<string>)
  {
    |verbs| > 0 && (Contains(s, verbs[0]) || ContainsAny(s, verbs[1..]))
  }

  /** `ContainsAny` holds exactly when one of the words is a substring. */
  lemma {:induction false} ContainsAnyMeans(s: string, verbs: seq<string>)
    ensures ContainsAny(s, verbs) <==> exists k :: 0 <= k < |verbs| && Contains(s, verbs[k])
  {
    if verbs != [] {
      ContainsAnyMeans(s, verbs[1..]);
      assert forall k :: 1 <= k < |verbs| ==> verbs[k] == verbs[1..][k - 1];
      if exists k :: 0 <= k < |verbs| && Contains(s, verbs[k]) {
        var k :| 0 <= k < |verbs| && Contains(s, verbs[k]);
        if k > 0 {
          assert Contains(s, verbs[1..][k - 1]);
        }
      }
    }
  }
}
