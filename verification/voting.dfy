/** Vote averaging shared by `BalRandomForest.predict`/`classify` and the
    duplicate `Ensemble.epredict`/`eclassify`. A base learner (a fitted
    decision tree) is opaque: a total map from a feature row to a class label. */
module Voting {
  import opened Wrappers
  import opened Sequences

  /** One feature vector (a numpy row). */
  type Row = seq<real>

  /** A class label as `clf.predict` returns it: 0 (legit) or 1 (scam). */
  type Vote = v: int | 0 <= v <= 1

  /** A fitted base learner. */
  type Learner = Row -> Vote

  /** The number of learners of `es` that vote 1 on `row`. */
  function Votes(es: seq<Learner>, row: Row): (k: nat)
    ensures k <= |es|
  {
    if es == [] then 0 else Votes(es[..|es| - 1], row) + es[|es| - 1](row)
  }

  /** The ensemble score of a row: the mean of the learners' labels, k/M. */
  function Score(es: seq<Learner>, row: Row): (p: real)
    requires |es| > 0
    ensures 0.0 <= p <= 1.0
  {
    Votes(es, row) as real / |es| as real
  }

  /** The labels `classify` assigns: 1 exactly where the score reaches the threshold. */
  function Classification(es: seq<Learner>, x: seq<Row>, threshold: real): (c: seq<Vote>)
    requires |es| > 0
  {
    seq(|x|, j requires 0 <= j < |x| => if Score(es, x[j]) >= threshold then 1 else 0)
  }

  /** The number of rows labelled 1. */
  function Positives(c: seq<Vote>): nat {
    CountIf(c, (v: Vote) => v == 1)
  }

  /** `np.mean([clf.predict(x) for clf in es], axis=0)`: per row, the mean vote.
      With no learners numpy returns nan, modelled as `None`. */
  method MeanVotes(es: seq<Learner>, x: seq<Row>) returns (r: Option<seq<real>>)
    ensures r.None? <==> |es| == 0
    ensures r.Some? ==> |r.value| == |x|
    ensures r.Some? ==> forall j :: 0 <= j < |x| ==> r.value[j] == Score(es, x[j])
  {
    if |es| == 0 {
      return None;
    }
    var sums: seq<nat> := seq(|x|, j => 0);
    var i := 0;
    while i < |es|
      invariant 0 <= i <= |es|
      invariant |sums| == |x|
      invariant forall j :: 0 <= j < |x| ==> sums[j] == Votes(es[..i], x[j])
    {
      var prediction := seq(|x|, j requires 0 <= j < |x| => es[i](x[j]));
      assert es[..i + 1][..i] == es[..i];
      sums := seq(|x|, j requires 0 <= j < |x| => sums[j] + prediction[j]);
      i := i + 1;
    }
    assert es[..|es|] == es;
    r := Some(seq(|x|, j requires 0 <= j < |x| => sums[j] as real / |es| as real));
  }

  /** `classification = zeros(len(pred)); classification[pred >= threshold] = 1`. */
  method Threshold(pred: seq<real>, threshold: real) returns (c: seq<Vote>)
    ensures |c| == |pred|
    ensures forall j :: 0 <= j < |pred| ==> (c[j] == 1 <==> pred[j] >= threshold)
  {
    var a := new Vote[|pred|](j => 0);
    forall j | 0 <= j < |pred| && pred[j] >= threshold {
      a[j] := 1;
    }
    c := a[..];
  }

  /** With a single learner the score is that learner's own label. */
  lemma ScoreOfOne(e: Learner, row: Row)
    ensures Score([e], row) == e(row) as real
  {
    assert [e][..0] == [];
  }

  /** Learners that all give the same label on a row: averaging them is a no-op. */
  lemma {:induction false} VotesUniform(es: seq<Learner>, row: Row, v: Vote)
    requires forall i :: 0 <= i < |es| ==> es[i](row) == v
    ensures Votes(es, row) == |es| * v
  {
    if es != [] {
      VotesUniform(es[..|es| - 1], row, v);
    }
  }

  lemma ScoreUniform(es: seq<Learner>, row: Row, v: Vote)
    requires |es| > 0
    requires forall i :: 0 <= i < |es| ==> es[i](row) == v
    ensures Score(es, row) == v as real
  {
    VotesUniform(es, row, v);
  }

  /** A label is 1 exactly when the score reaches the threshold, boundary included. */
  lemma ClassificationInclusive(es: seq<Learner>, x: seq<Row>, threshold: real, j: nat)
    requires |es| > 0 && j < |x|
    ensures |Classification(es, x, threshold)| == |x|
    ensures Score(es, x[j]) == threshold ==> Classification(es, x, threshold)[j] == 1
    ensures Classification(es, x, threshold)[j] == 1 <==> Votes(es, x[j]) as real >= threshold * |es| as real
  {
    var m := |es| as real;
    var p := Score(es, x[j]);
    assert p * m == Votes(es, x[j]) as real;
    assert (p - threshold) * m == Votes(es, x[j]) as real - threshold * m;
    SignOfProduct(p - threshold, m);
  }

  /** Multiplying by a positive number keeps the sign. */
  lemma SignOfProduct(a: real, m: real)
    requires m > 0.0
    ensures a >= 0.0 <==> a * m >= 0.0
  {
    if a < 0.0 {
      assert (-a) * m > 0.0;
    }
  }

  lemma {:induction false} PositivesPointwise(c1: seq<Vote>, c2: seq<Vote>)
    requires |c1| == |c2|
    requires forall j :: 0 <= j < |c1| ==> c2[j] <= c1[j]
    ensures Positives(c2) <= Positives(c1)
  {
    if c1 != [] {
      PositivesPointwise(c1[..|c1| - 1], c2[..|c2| - 1]);
    }
  }

  /** Raising the threshold never turns a 0 into a 1, so it never increases the number of 1s. */
  lemma ClassificationMonotone(es: seq<Learner>, x: seq<Row>, t1: real, t2: real)
    requires |es| > 0 && t1 <= t2
    ensures forall j :: 0 <= j < |x| ==> Classification(es, x, t2)[j] <= Classification(es, x, t1)[j]
    ensures Positives(Classification(es, x, t2)) <= Positives(Classification(es, x, t1))
  {
    PositivesPointwise(Classification(es, x, t1), Classification(es, x, t2));
  }
}
