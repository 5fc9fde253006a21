/** The sampling arithmetic of `BalRandomForest`: class tags, the held-out test
    slice, and the class-balanced bootstrap sample. Random draws
    (`np.random.permutation`, `np.random.randint`) are supplied as data. */
module Sampling {
  import opened Wrappers
  import opened Sequences
  import opened Voting

  /** A tagged row: its last column is the class tag `t`. */
  predicate HasTag(r: Row, t: real) {
    |r| > 0 && r[|r| - 1] == t
  }

  predicate AllTagged(rows: seq<Row>, t: real) {
    forall i :: 0 <= i < |rows| ==> HasTag(rows[i], t)
  }

  function IsTaggedWith(t: real): Row -> bool {
    (r: Row) => HasTag(r, t)
  }

  /** The number of rows tagged `t`. */
  function CountTag(rows: seq<Row>, t: real): nat {
    CountIf(rows, IsTaggedWith(t))
  }

  /** `np.concatenate((rows, tags), axis=1)` with a constant tag column:
      every row gains exactly one column, the tag, and keeps its features. */
  function Tagged(rows: seq<Row>, t: real): (r: seq<Row>)
    ensures |r| == |rows| && AllTagged(r, t)
    ensures forall i :: 0 <= i < |rows| ==> |r[i]| == |rows[i]| + 1 && r[i][..|rows[i]|] == rows[i]
  {
    seq(|rows|, i requires 0 <= i < |rows| => rows[i] + [t])
  }

  /** Rows that all carry tag `t` count fully towards `t` and not at all towards another tag. */
  lemma CountTagAll(rows: seq<Row>, t: real, u: real)
    requires AllTagged(rows, t)
    ensures CountTag(rows, t) == |rows|
    ensures u != t ==> CountTag(rows, u) == 0
  {
    CountIfAll(rows, IsTaggedWith(t));
    CountIfAll(rows, IsTaggedWith(u));
  }

  /** Shuffling tagged rows keeps them tagged. */
  lemma ShuffleKeepsTags(rows: seq<Row>, p: seq<nat>, t: real)
    requires AllTagged(rows, t) && IsPermutation(p, |rows|)
    ensures AllTagged(Shuffle(rows, p), t)
  {
    var s := Shuffle(rows, p);
    ShuffleMultiset(rows, p);
    forall i | 0 <= i < |s| ensures HasTag(s[i], t) {
      assert s[i] in multiset(rows);
    }
  }

  /** Shuffling rows changes no tag count. */
  lemma CountTagShuffle(rows: seq<Row>, p: seq<nat>, t: real)
    requires IsPermutation(p, |rows|)
    ensures CountTag(Shuffle(rows, p), t) == CountTag(rows, t)
  {
    ShuffleMultiset(rows, p);
    CountIfMultiset(Shuffle(rows, p), rows, IsTaggedWith(t));
  }

  /** `test_size = int((1. - train_size) * n_scams)`, over exact reals. */
  function TestSize(trainSize: real, nScams: nat): (ts: nat)
    requires 0.0 <= trainSize <= 1.0
    ensures ts <= nScams
    ensures ts as real <= (1.0 - trainSize) * nScams as real < ts as real + 1.0
  {
    var n := nScams as real;
    var x := (1.0 - trainSize) * n;
    assert x == n - trainSize * n;
    assert 0.0 <= trainSize * n <= n by {
      assert trainSize * n <= 1.0 * n;
    }
    x.Floor
  }

  /** Python's `s[i:]`: a negative start counts from the end; out-of-range starts are clipped. */
  function PySliceFrom<T>(s: seq<T>, i: int): seq<T> {
    var k := if i < 0 then (if |s| + i < 0 then 0 else |s| + i) else if i > |s| then |s| else i;
    s[k..]
  }

  /** Python's `s[:j]`: a negative stop counts from the end; out-of-range stops are clipped. */
  function PySliceTo<T>(s: seq<T>, j: int): seq<T> {
    var k := if j < 0 then (if |s| + j < 0 then 0 else |s| + j) else if j > |s| then |s| else j;
    s[..k]
  }

  /** The test slice as written, `pool[-test_size:]`. */
  function AsWrittenTestSlice<T>(pool: seq<T>, ts: nat): seq<T> {
    PySliceFrom(pool, -(ts as int))
  }

  /** The training remainder as written, `pool[:len(pool) - test_size]`. */
  function AsWrittenTrainSlice<T>(pool: seq<T>, ts: nat): seq<T> {
    PySliceTo(pool, |pool| - ts)
  }

  /** With a test size of zero, `pool[-0:]` is the whole pool, and so is the
      training remainder: every row is both a test row and a training row. */
  lemma AsWrittenZeroTestSize<T>(pool: seq<T>)
    requires |pool| > 0
    ensures AsWrittenTestSlice(pool, 0) == pool
    ensures AsWrittenTrainSlice(pool, 0) == pool
    ensures |AsWrittenTestSlice(pool, 0)| + |AsWrittenTrainSlice(pool, 0)| > |pool|
  {
  }

  /** The default 0.8 split of four scam rows gives a test size of zero. */
  lemma ZeroTestSizeExample()
    ensures TestSize(0.8, 4) == 0
  {
    assert (1.0 - 0.8) * 4 as real == 0.8;
  }

  /** A legit pool shorter than the test size: `legit[-test_size:]` is the whole
      pool while `legit[:n_legit - test_size]` wraps around to a non-empty prefix. */
  lemma AsWrittenShortPool<T>(pool: seq<T>, ts: nat)
    requires |pool| < ts < 2 * |pool|
    ensures AsWrittenTestSlice(pool, ts) == pool
    ensures AsWrittenTrainSlice(pool, ts) == pool[..2 * |pool| - ts]
    ensures |AsWrittenTestSlice(pool, ts)| + |AsWrittenTrainSlice(pool, ts)| > |pool|
  {
  }

  /** How many rows of a pool of n rows are held out for testing. */
  function Held(ts: nat, n: nat): (h: nat)
    ensures h <= n && h <= ts && (h == ts || h == n)
  {
    if ts < n then ts else n
  }

  /** The test slice: the last `test_size` rows (all of them if the pool is shorter). */
  function TestSlice<T>(pool: seq<T>, ts: nat): seq<T> {
    pool[|pool| - Held(ts, |pool|)..]
  }

  /** The training remainder: the rows before the test slice. */
  function TrainSlice<T>(pool: seq<T>, ts: nat): seq<T> {
    pool[..|pool| - Held(ts, |pool|)]
  }

  /** The two slices split the pool: no row position is both a test and a training row. */
  lemma SlicesPartition<T>(pool: seq<T>, ts: nat)
    ensures TrainSlice(pool, ts) + TestSlice(pool, ts) == pool
    ensures multiset(TrainSlice(pool, ts)) + multiset(TestSlice(pool, ts)) == multiset(pool)
    ensures |TestSlice(pool, ts)| == Held(ts, |pool|)
    ensures |TrainSlice(pool, ts)| == |pool| - Held(ts, |pool|)
  {
    assert TrainSlice(pool, ts) + TestSlice(pool, ts) == pool;
  }

  /** For a test size between 1 and the pool size the corrected slices are the source's. */
  lemma AsWrittenAgrees<T>(pool: seq<T>, ts: nat)
    requires 1 <= ts <= |pool|
    ensures AsWrittenTestSlice(pool, ts) == TestSlice(pool, ts)
    ensures AsWrittenTrainSlice(pool, ts) == TrainSlice(pool, ts)
  {
  }

  /** `allocate_test_sample`: the two test slices joined and shuffled. */
  function TestSample(legit: seq<Row>, scams: seq<Row>, ts: nat, perm: seq<nat>): seq<Row>
    requires IsPermutation(perm, |TestSlice(legit, ts)| + |TestSlice(scams, ts)|)
  {
    Shuffle(TestSlice(legit, ts) + TestSlice(scams, ts), perm)
  }

  /** The test sample has `test_size` rows of each class when both pools are large enough. */
  lemma TestSampleBalanced(legit: seq<Row>, scams: seq<Row>, ts: nat, perm: seq<nat>)
    requires AllTagged(legit, 0.0) && AllTagged(scams, 1.0)
    requires ts <= |scams| && ts <= |legit|
    requires IsPermutation(perm, |TestSlice(legit, ts)| + |TestSlice(scams, ts)|)
    ensures |TestSample(legit, scams, ts, perm)| == 2 * ts
    ensures CountTag(TestSample(legit, scams, ts, perm), 1.0) == ts
    ensures CountTag(TestSample(legit, scams, ts, perm), 0.0) == ts
  {
    var tl, tsc := TestSlice(legit, ts), TestSlice(scams, ts);
    assert AllTagged(tl, 0.0) && AllTagged(tsc, 1.0);
    CountTagShuffle(tl + tsc, perm, 1.0);
    CountTagShuffle(tl + tsc, perm, 0.0);
    CountIfAppend(tl, tsc, IsTaggedWith(1.0));
    CountIfAppend(tl, tsc, IsTaggedWith(0.0));
    CountTagAll(tl, 0.0, 1.0);
    CountTagAll(tsc, 1.0, 0.0);
  }

  /** The random draws of one `_prep_bal_data` call, in the order the source makes them. */
  datatype Draw = Draw(scamsPerm: seq<nat>, legitPerm: seq<nat>,
                       legitIdx: seq<nat>, scamsIdx: seq<nat>, joinPerm: seq<nat>)

  /** Draws of the shapes numpy returns: permutations of the two remainders,
      `randint(m, size=m)` twice with m the scam remainder size, and a
      permutation of the 2m joined rows. */
  ghost predicate DrawFits(d: Draw, nScams: nat, nLegit: nat) {
    && IsPermutation(d.scamsPerm, nScams)
    && IsPermutation(d.legitPerm, nLegit)
    && |d.legitIdx| == nScams && InBounds(d.legitIdx, nScams)
    && |d.scamsIdx| == nScams && InBounds(d.scamsIdx, nScams)
    && IsPermutation(d.joinPerm, 2 * nScams)
  }

  /** `_prep_bal_data`: shuffle each training remainder, resample `m` rows with
      replacement from each using indices below `m` (the scam remainder size),
      join scams then legit rows and shuffle. `None` is numpy's ValueError from
      `randint(0)` when the scam remainder is empty (no tree could be fitted on
      the empty sample either), or its IndexError when a legit index reaches
      past a shorter legit remainder. */
  function BalancedSample(legit: seq<Row>, scams: seq<Row>, ts: nat, d: Draw): Option<seq<Row>>
    requires DrawFits(d, |TrainSlice(scams, ts)|, |TrainSlice(legit, ts)|)
  {
    var bootScams := Shuffle(TrainSlice(scams, ts), d.scamsPerm);
    var bootLegit := Shuffle(TrainSlice(legit, ts), d.legitPerm);
    if |bootScams| == 0 then None
    else if !InBounds(d.legitIdx, |bootLegit|) then None
    else
      Some(Shuffle(Gather(bootScams, d.scamsIdx) + Gather(bootLegit, d.legitIdx), d.joinPerm))
  }

  /** Every bootstrap sample is exactly balanced: m scam rows and m legit rows,
      m being the scam remainder size, and every row is tagged. */
  lemma BalancedSampleBalanced(legit: seq<Row>, scams: seq<Row>, ts: nat, d: Draw)
    requires AllTagged(legit, 0.0) && AllTagged(scams, 1.0)
    requires DrawFits(d, |TrainSlice(scams, ts)|, |TrainSlice(legit, ts)|)
    requires BalancedSample(legit, scams, ts, d).Some?
    ensures var s := BalancedSample(legit, scams, ts, d).value;
            var m := |TrainSlice(scams, ts)|;
            && |s| == 2 * m && CountTag(s, 1.0) == m && CountTag(s, 0.0) == m
            && forall i :: 0 <= i < |s| ==> HasTag(s[i], 0.0) || HasTag(s[i], 1.0)
  {
    var bootScams := Shuffle(TrainSlice(scams, ts), d.scamsPerm);
    var bootLegit := Shuffle(TrainSlice(legit, ts), d.legitPerm);
    ShuffleMultiset(TrainSlice(scams, ts), d.scamsPerm);
    ShuffleMultiset(TrainSlice(legit, ts), d.legitPerm);
    assert AllTagged(bootScams, 1.0) by {
      forall i | 0 <= i < |bootScams| ensures HasTag(bootScams[i], 1.0) {
        assert bootScams[i] in multiset(TrainSlice(scams, ts));
      }
    }
    assert AllTagged(bootLegit, 0.0) by {
      forall i | 0 <= i < |bootLegit| ensures HasTag(bootLegit[i], 0.0) {
        assert bootLegit[i] in multiset(TrainSlice(legit, ts));
      }
    }
    var pickScams := Gather(bootScams, d.scamsIdx);
    var pickLegit := Gather(bootLegit, d.legitIdx);
    var joined := pickScams + pickLegit;
    var s := Shuffle(joined, d.joinPerm);
    ShuffleMultiset(joined, d.joinPerm);
    CountTagShuffle(joined, d.joinPerm, 1.0);
    CountTagShuffle(joined, d.joinPerm, 0.0);
    CountIfAppend(pickScams, pickLegit, IsTaggedWith(1.0));
    CountIfAppend(pickScams, pickLegit, IsTaggedWith(0.0));
    CountTagAll(pickScams, 1.0, 0.0);
    CountTagAll(pickLegit, 0.0, 1.0);
    forall i | 0 <= i < |s| ensures HasTag(s[i], 0.0) || HasTag(s[i], 1.0) {
      assert s[i] in multiset(joined);
    }
  }

  /** Every bootstrap row comes from a training remainder, never from a test slice. */
  lemma BalancedSampleFromTraining(legit: seq<Row>, scams: seq<Row>, ts: nat, d: Draw)
    requires DrawFits(d, |TrainSlice(scams, ts)|, |TrainSlice(legit, ts)|)
    requires BalancedSample(legit, scams, ts, d).Some?
    ensures var s := BalancedSample(legit, scams, ts, d).value;
            forall i :: 0 <= i < |s| ==> s[i] in TrainSlice(scams, ts) || s[i] in TrainSlice(legit, ts)
  {
    var bootScams := Shuffle(TrainSlice(scams, ts), d.scamsPerm);
    var bootLegit := Shuffle(TrainSlice(legit, ts), d.legitPerm);
    var joined := Gather(bootScams, d.scamsIdx) + Gather(bootLegit, d.legitIdx);
    var s := Shuffle(joined, d.joinPerm);
    ShuffleMultiset(TrainSlice(scams, ts), d.scamsPerm);
    ShuffleMultiset(TrainSlice(legit, ts), d.legitPerm);
    ShuffleMultiset(joined, d.joinPerm);
    forall i | 0 <= i < |s| ensures s[i] in TrainSlice(scams, ts) || s[i] in TrainSlice(legit, ts) {
      assert s[i] in multiset(joined);
      var k :| 0 <= k < |joined| && joined[k] == s[i];
      if k < |d.scamsIdx| {
        assert joined[k] in multiset(bootScams);
      } else {
        assert joined[k] == bootLegit[d.legitIdx[k - |d.scamsIdx|]];
        assert joined[k] in multiset(bootLegit);
      }
    }
  }

  /** When the scam remainder is not empty and the legit pool is at least as
      large as the scam pool, every draw succeeds. */
  lemma BalancedSampleDefined(legit: seq<Row>, scams: seq<Row>, ts: nat, d: Draw)
    requires ts < |scams| <= |legit|
    requires DrawFits(d, |TrainSlice(scams, ts)|, |TrainSlice(legit, ts)|)
    ensures BalancedSample(legit, scams, ts, d).Some?
  {
  }

  /** With no scam training rows (an empty scam pool, or a test size that holds
      out every scam) no draw yields a sample. */
  lemma BalancedSampleNoScams(legit: seq<Row>, scams: seq<Row>, ts: nat, d: Draw)
    requires DrawFits(d, |TrainSlice(scams, ts)|, |TrainSlice(legit, ts)|)
    requires |scams| <= ts
    ensures BalancedSample(legit, scams, ts, d).None?
  {
  }

  /** When the legit remainder is shorter than the scam remainder some draw
      indexes past it: the bootstrap is not always defined. */
  lemma BalancedSampleCanFail(legit: seq<Row>, scams: seq<Row>, ts: nat)
    requires |TrainSlice(legit, ts)| < |TrainSlice(scams, ts)|
    ensures exists d :: DrawFits(d, |TrainSlice(scams, ts)|, |TrainSlice(legit, ts)|)
                        && BalancedSample(legit, scams, ts, d).None?
  {
    var m, n := |TrainSlice(scams, ts)|, |TrainSlice(legit, ts)|;
    var top := seq(m, _ => m - 1);
    var d := Draw(Range(m), Range(n), top, top, Range(2 * m));
    assert DrawFits(d, m, n);
    assert !InBounds(d.legitIdx, n) by {
      assert d.legitIdx[0] == m - 1;
    }
  }
}
