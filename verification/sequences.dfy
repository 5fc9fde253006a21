/** Sequence operations shared by the model: numpy fancy indexing, permutations
    as produced by a random source, counting and filtering. */
module Sequences {

  /** The indices 0 .. n-1 in increasing order. */
  function Range(n: nat): (r: seq<nat>)
    ensures |r| == n
    ensures forall i :: 0 <= i < n ==> r[i] == i
  {
    seq(n, i => i)
  }

  /** `p` is a rearrangement of 0 .. n-1, as `np.random.permutation(n)` returns. */
  ghost predicate IsPermutation(p: seq<nat>, n: nat) {
    multiset(p) == multiset(Range(n))
  }

  /** Every index of `idx` addresses an element of a sequence of length `n`. */
  predicate InBounds(idx: seq<nat>, n: nat) {
    forall i :: 0 <= i < |idx| ==> idx[i] < n
  }

  /** `s[idx]`: the elements of `s` at the positions listed in `idx`, in that order. */
  function Gather<T>(s: seq<T>, idx: seq<nat>): (r: seq<T>)
    requires InBounds(idx, |s|)
    ensures |r| == |idx|
    ensures forall i :: 0 <= i < |idx| ==> r[i] == s[idx[i]]
  {
    seq(|idx|, i requires 0 <= i < |idx| => s[idx[i]])
  }

  lemma {:induction false} RangeMembers(n: nat, x: nat)
    ensures x in multiset(Range(n)) <==> x < n
  {
    if x < n {
      assert Range(n)[x] == x;
    } else {
      assert forall i :: 0 <= i < n ==> Range(n)[i] != x;
      assert x !in Range(n);
    }
  }

  /** A permutation of 0 .. n-1 has length n and only in-bounds entries. */
  lemma PermutationBounds(p: seq<nat>, n: nat)
    requires IsPermutation(p, n)
    ensures |p| == n && InBounds(p, n)
  {
    assert |p| == |multiset(p)| == |multiset(Range(n))| == n;
    forall i | 0 <= i < |p| ensures p[i] < n {
      assert p[i] in multiset(p);
      RangeMembers(n, p[i]);
    }
  }

  /** Removing the largest index from a permutation of 0 .. n-1 leaves a permutation of 0 .. n-2. */
  lemma DropLargest(p: seq<nat>, n: nat, j: nat)
    requires IsPermutation(p, n) && j < |p| && p[j] == n - 1
    ensures n > 0 && IsPermutation(p[..j] + p[j + 1..], n - 1)
  {
    var p' := p[..j] + p[j + 1..];
    assert p == p[..j] + [p[j]] + p[j + 1..];
    assert Range(n) == Range(n - 1) + [p[j]];
    calc {
      multiset(p') + multiset{p[j]};
      multiset(p[..j]) + multiset{p[j]} + multiset(p[j + 1..]);
      multiset(p);
      multiset(Range(n - 1)) + multiset{p[j]};
    }
    assert multiset(p') == multiset(p') + multiset{p[j]} - multiset{p[j]};
  }

  /** Gathering through a permutation that sends position j to the last element
      is gathering the rest and inserting the last element at j. */
  lemma GatherInsert<T>(s: seq<T>, p: seq<nat>, j: nat)
    requires |s| > 0 && |p| == |s| && InBounds(p, |s|) && j < |p| && p[j] == |s| - 1
    requires InBounds(p[..j] + p[j + 1..], |s| - 1)
    ensures var g' := Gather(s[..|s| - 1], p[..j] + p[j + 1..]);
            j <= |g'| && Gather(s, p) == g'[..j] + [s[|s| - 1]] + g'[j..]
  {
    var p' := p[..j] + p[j + 1..];
    var g' := Gather(s[..|s| - 1], p');
    var g := Gather(s, p);
    forall i | 0 <= i < |s| ensures g[i] == (g'[..j] + [s[|s| - 1]] + g'[j..])[i] {
      if i < j {
        assert p'[i] == p[i];
      } else if i > j {
        assert p'[i - 1] == p[i];
      }
    }
  }

  lemma MultisetInsert<T>(a: seq<T>, j: nat, x: T)
    requires j <= |a|
    ensures multiset(a[..j] + [x] + a[j..]) == multiset(a) + multiset{x}
  {
    assert a == a[..j] + a[j..];
  }

  /** Applying a permutation only reorders: it keeps every element with its multiplicity. */
  lemma {:induction false} GatherPermutation<T>(s: seq<T>, p: seq<nat>)
    requires IsPermutation(p, |s|)
    ensures |p| == |s| && InBounds(p, |s|)
    ensures multiset(Gather(s, p)) == multiset(s)
    decreases |s|
  {
    PermutationBounds(p, |s|);
    if |s| > 0 {
      var n := |s|;
      RangeMembers(n, n - 1);
      assert n - 1 in multiset(p);
      var j :| 0 <= j < |p| && p[j] == n - 1;
      var p' := p[..j] + p[j + 1..];
      DropLargest(p, n, j);
      var s' := s[..n - 1];
      GatherPermutation(s', p');
      GatherInsert(s, p, j);
      MultisetInsert(Gather(s', p'), j, s[n - 1]);
      assert s == s' + [s[n - 1]];
    }
  }

  /** `s[np.random.permutation(len(s))]`: the elements of `s` in the order `p` lists. */
  function Shuffle<T>(s: seq<T>, p: seq<nat>): (r: seq<T>)
    requires IsPermutation(p, |s|)
    ensures |r| == |s|
  {
    PermutationBounds(p, |s|);
    Gather(s, p)
  }

  /** A shuffle keeps the same elements, each as often as before. */
  lemma ShuffleMultiset<T>(s: seq<T>, p: seq<nat>)
    requires IsPermutation(p, |s|)
    ensures multiset(Shuffle(s, p)) == multiset(s)
  {
    GatherPermutation(s, p);
  }

  /** The number of elements of `s` that satisfy `p`. */
  function CountIf<T>(s: seq<T>, p: T -> bool): (c: nat)
    ensures c <= |s|
  {
    if s == [] then 0 else CountIf(s[..|s| - 1], p) + (if p(s[|s| - 1]) then 1 else 0)
  }

  lemma {:induction false} CountIfAppend<T>(a: seq<T>, b: seq<T>, p: T -> bool)
    ensures CountIf(a + b, p) == CountIf(a, p) + CountIf(b, p)
    decreases |b|
  {
    if b == [] {
      assert a + b == a;
    } else {
      assert (a + b)[..|a + b| - 1] == a + b[..|b| - 1];
      CountIfAppend(a, b[..|b| - 1], p);
    }
  }

  /** When every element satisfies `p` the count is the length; when none does it is zero. */
  lemma {:induction false} CountIfAll<T>(s: seq<T>, p: T -> bool)
    ensures (forall i :: 0 <= i < |s| ==> p(s[i])) ==> CountIf(s, p) == |s|
    ensures (forall i :: 0 <= i < |s| ==> !p(s[i])) ==> CountIf(s, p) == 0
    decreases |s|
  {
    if s != [] {
      CountIfAll(s[..|s| - 1], p);
    }
  }

  /** Counting depends only on the multiset of elements, not on their order. */
  lemma {:induction false} CountIfMultiset<T>(a: seq<T>, b: seq<T>, p: T -> bool)
    requires multiset(a) == multiset(b)
    ensures CountIf(a, p) == CountIf(b, p)
    decreases |a|
  {
    if a == [] {
      assert |b| == |multiset(b)| == 0;
    } else {
      var x := a[|a| - 1];
      assert x in multiset(b);
      var j :| 0 <= j < |b| && b[j] == x;
      var b' := b[..j] + b[j + 1..];
      assert b == b[..j] + [x] + b[j + 1..];
      assert a == a[..|a| - 1] + [x];
      calc {
        multiset(a[..|a| - 1]) + multiset{x};
        multiset(a);
        multiset(b);
        multiset(b[..j]) + multiset{x} + multiset(b[j + 1..]);
        multiset(b') + multiset{x};
      }
      assert multiset(a[..|a| - 1]) == multiset(a[..|a| - 1]) + multiset{x} - multiset{x};
      assert multiset(b') == multiset(b') + multiset{x} - multiset{x};
      CountIfMultiset(a[..|a| - 1], b', p);
      CountIfAppend(b[..j] + [x], b[j + 1..], p);
      CountIfAppend(b[..j], [x], p);
      CountIfAppend(b[..j], b[j + 1..], p);
      assert CountIf([x], p) == if p(x) then 1 else 0 by {
        assert [x][..0] == [];
      }
    }
  }

  /** The elements of `s` that satisfy `p`, in their original order. */
  function Filter<T>(s: seq<T>, p: T -> bool): (r: seq<T>)
    ensures |r| == CountIf(s, p)
  {
    if s == [] then [] else Filter(s[..|s| - 1], p) + (if p(s[|s| - 1]) then [s[|s| - 1]] else [])
  }

  /** Filtering keeps exactly the elements that satisfy `p`. */
  lemma {:induction false} FilterMembers<T>(s: seq<T>, p: T -> bool, x: T)
    ensures x in Filter(s, p) <==> x in s && p(x)
    decreases |s|
  {
    if s != [] {
      FilterMembers(s[..|s| - 1], p, x);
      assert s == s[..|s| - 1] + [s[|s| - 1]];
    }
  }

  /** Where each element of `Filter(s, p)` sits in `s`: the positions increase,
      so filtering keeps the original order. */
  function FilterPositions<T>(s: seq<T>, p: T -> bool): (idx: seq<nat>)
    ensures |idx| == |Filter(s, p)|
    ensures forall j :: 0 <= j < |idx| ==> idx[j] < |s| && s[idx[j]] == Filter(s, p)[j]
    ensures forall i, j :: 0 <= i < j < |idx| ==> idx[i] < idx[j]
  {
    if s == [] then []
    else
      var init := s[..|s| - 1];
      FilterPositions(init, p) + (if p(s[|s| - 1]) then [|s| - 1] else [])
  }

  /** Filtering a concatenation filters each part and keeps their order. */
  lemma {:induction false} FilterAppend<T>(a: seq<T>, b: seq<T>, p: T -> bool)
    ensures Filter(a + b, p) == Filter(a, p) + Filter(b, p)
    decreases |b|
  {
    if b == [] {
      assert a + b == a;
    } else {
      assert (a + b)[..|a + b| - 1] == a + b[..|b| - 1];
      FilterAppend(a, b[..|b| - 1], p);
    }
  }

  /** Filtering by a predicate every element satisfies keeps the sequence;
      by one no element satisfies, empties it. */
  lemma {:induction false} FilterAll<T>(s: seq<T>, p: T -> bool)
    ensures (forall i :: 0 <= i < |s| ==> p(s[i])) ==> Filter(s, p) == s
    ensures (forall i :: 0 <= i < |s| ==> !p(s[i])) ==> Filter(s, p) == []
    decreases |s|
  {
    if s != [] {
      FilterAll(s[..|s| - 1], p);
      assert s == s[..|s| - 1] + [s[|s| - 1]];
    }
  }
}
