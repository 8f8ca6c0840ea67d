/** Order-preserving subsequences, the relation that every `filter` in the
    application establishes between its output and its input. */
module Seqs {

  /** `a` can be obtained from `b` by deleting elements, keeping the order of
      the rest. Written on the last elements, as the filters are. */
  predicate IsSubsequence<T(==)>(a: seq<T>, b: seq<T>)
    decreases |b|
  {
    if |a| == 0 then true
    else if |b| == 0 then false
    else (a[|a| - 1] == b[|b| - 1] && IsSubsequence(a[..|a| - 1], b[..|b| - 1]))
         || IsSubsequence(a, b[..|b| - 1])
  }

  lemma {:induction false} SubsequenceShorter<T>(a: seq<T>, b: seq<T>)
    requires IsSubsequence(a, b)
    ensures |a| <= |b|
    decreases |b|
  {
    if |a| > 0 {
      if a[|a| - 1] == b[|b| - 1] && IsSubsequence(a[..|a| - 1], b[..|b| - 1]) {
        SubsequenceShorter(a[..|a| - 1], b[..|b| - 1]);
      } else {
        SubsequenceShorter(a, b[..|b| - 1]);
      }
    }
  }

  lemma {:induction false} SubsequenceMembers<T>(a: seq<T>, b: seq<T>, x: T)
    requires IsSubsequence(a, b) && x in a
    ensures x in b
    decreases |b|
  {
    var b' := b[..|b| - 1];
    if a[|a| - 1] == b[|b| - 1] && IsSubsequence(a[..|a| - 1], b') {
      if x != a[|a| - 1] {
        assert a == a[..|a| - 1] + [a[|a| - 1]];
        SubsequenceMembers(a[..|a| - 1], b', x);
        assert b == b' + [b[|b| - 1]];
      }
    } else {
      SubsequenceMembers(a, b', x);
      assert b == b' + [b[|b| - 1]];
    }
  }

  lemma {:induction false} SubsequenceReflexive<T>(a: seq<T>)
    ensures IsSubsequence(a, a)
    decreases |a|
  {
    if |a| > 0 {
      SubsequenceReflexive(a[..|a| - 1]);
    }
  }

  /** `s.filter((_, i) => i !== j)`: drops the element at index `j`, if any. */
  function WithoutIndex<T>(s: seq<T>, j: int): (r: seq<T>)
    ensures |r| == if 0 <= j < |s| then |s| - 1 else |s|
    decreases |s|
  {
    if |s| == 0 then []
    else WithoutIndex(s[..|s| - 1], j) + (if |s| - 1 != j then [s[|s| - 1]] else [])
  }

  /** Filtering by index is the splice around `j`; an index outside the
      sequence removes nothing. */
  lemma {:induction false} WithoutIndexSplice<T>(s: seq<T>, j: int)
    ensures 0 <= j < |s| ==> WithoutIndex(s, j) == s[..j] + s[j + 1..]
    ensures !(0 <= j < |s|) ==> WithoutIndex(s, j) == s
    decreases |s|
  {
    if |s| > 0 {
      var init := s[..|s| - 1];
      WithoutIndexSplice(init, j);
      if j == |s| - 1 {
        assert s[j + 1..] == [];
        assert s[..j] == init;
      } else if 0 <= j < |s| - 1 {
        assert init[..j] == s[..j];
        assert init[j + 1..] + [s[|s| - 1]] == s[j + 1..];
      } else {
        assert init + [s[|s| - 1]] == s;
      }
    }
  }
}
