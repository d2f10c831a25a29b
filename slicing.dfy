/** Python's sequence slicing and `str.replace(pattern, "")`, written out
    because the driver relies on their corner cases (negative bounds, bounds
    past the end, a start past the stop). */
module Slicing {

  /** The position a Python slice bound `i` denotes in a sequence of length `n`. */
  function Bound(i: int, n: nat): (r: nat)
    ensures r <= n
    ensures 0 <= i <= n ==> r == i
    ensures i < 0 && 0 <= n + i ==> r == n + i
    ensures n + i < 0 ==> r == 0
    ensures n < i ==> r == n
  {
    if i < 0 then (if n + i < 0 then 0 else n + i)
    else if i > n then n
    else i
  }

  /** `s[a:b]` (step 1). */
  function Slice<T>(s: seq<T>, a: int, b: int): (r: seq<T>)
    ensures Bound(a, |s|) <= Bound(b, |s|) ==> r == s[Bound(a, |s|)..Bound(b, |s|)]
    ensures Bound(b, |s|) < Bound(a, |s|) ==> r == []
  {
    var i, j := Bound(a, |s|), Bound(b, |s|);
    if i <= j then s[i..j] else []
  }

  /** `s[a:]`. */
  function SliceFrom<T>(s: seq<T>, a: int): (r: seq<T>)
    ensures r == s[Bound(a, |s|)..]
  {
    Slice(s, a, |s|)
  }

  /** `s.replace(pattern, "")`: one left-to-right pass that deletes every
      non-overlapping occurrence of `pattern`. */
  function RemoveAll(s: string, pattern: string): (r: string)
    requires pattern != []
    ensures |r| <= |s|
    decreases |s|
  {
    if |s| < |pattern| then s
    else if s[..|pattern|] == pattern then RemoveAll(s[|pattern|..], pattern)
    else [s[0]] + RemoveAll(s[1..], pattern)
  }

  /** `pattern` starts at position `i` of `s`. */
  predicate OccursAt(pattern: string, s: string, i: int) {
    0 <= i <= |s| - |pattern| && s[i..i + |pattern|] == pattern
  }

  predicate OccursIn(pattern: string, s: string) {
    exists i | 0 <= i <= |s| :: OccursAt(pattern, s, i)
  }

  /** An occurrence in the text after its first character is one in the
      text, one position further on. */
  lemma OccursShift(pattern: string, s: string, i: nat)
    requires |s| > 0
    ensures OccursAt(pattern, s[1..], i) <==> OccursAt(pattern, s, i + 1)
  {
    if i <= |s[1..]| - |pattern| {
      assert s[1..][i..i + |pattern|] == s[i + 1..i + 1 + |pattern|];
    }
  }

  /** A text that does not contain the pattern is returned unchanged. */
  lemma {:induction false} RemoveAllAbsent(s: string, pattern: string)
    requires pattern != []
    requires !OccursIn(pattern, s)
    ensures RemoveAll(s, pattern) == s
    decreases |s|
  {
    if |s| >= |pattern| {
      assert s[0..0 + |pattern|] == s[..|pattern|];
      assert !OccursAt(pattern, s, 0);
      assert !OccursIn(pattern, s[1..]) by {
        forall i | 0 <= i <= |s[1..]|
          ensures !OccursAt(pattern, s[1..], i)
        {
          OccursShift(pattern, s, i);
        }
      }
      RemoveAllAbsent(s[1..], pattern);
    }
  }

  /** The scan keeps the text before the first occurrence, deletes that
      occurrence and goes on after it: the leftmost-first characterization
      of `str.replace(pattern, "")`. */
  lemma {:induction false} RemoveAllAfterPrefix(a: string, pattern: string, b: string)
    requires pattern != []
    requires forall i :: 0 <= i < |a| ==> !OccursAt(pattern, a + pattern + b, i)
    ensures RemoveAll(a + pattern + b, pattern) == a + RemoveAll(b, pattern)
    decreases |a|
  {
    var s := a + pattern + b;
    if |a| == 0 {
      assert s == pattern + b && s[..|pattern|] == pattern && s[|pattern|..] == b;
    } else {
      assert s[..|pattern|] != pattern by {
        assert !OccursAt(pattern, s, 0);
        assert s[0..0 + |pattern|] == s[..|pattern|];
      }
      assert RemoveAll(s, pattern) == [s[0]] + RemoveAll(s[1..], pattern);
      var a' := a[1..];
      assert s[1..] == a' + pattern + b;
      forall i | 0 <= i < |a'| ensures !OccursAt(pattern, s[1..], i) {
        OccursShift(pattern, s, i);
      }
      RemoveAllAfterPrefix(a', pattern, b);
      assert [s[0]] + a' == a;
    }
  }

  /** Only one pass is made: removing the inner occurrence can create a new one. */
  lemma RemoveAllSinglePass()
    ensures RemoveAll("aabb", "ab") == "ab"
  {
    assert "aabb"[..2] == "aa";
    assert "aabb"[1..] == "abb";
    assert "abb"[..2] == "ab";
    assert "abb"[2..] == "b";
  }
}
