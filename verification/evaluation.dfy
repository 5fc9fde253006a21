/** Threshold-dependent quality measures of `BalRandomForest`: the confusion
    matrix, precision / recall / false-positive rate, and the counts behind
    `validate`. Labels `c` are a classification, `tags` the true classes (floats
    in the source; 0.0 for legit and 1.0 for scam rows). */
module Evaluation {
  import opened Wrappers
  import opened Voting

  /** `[[tn, fn], [fp, tp]]`. Entries are sums of tags, so they are reals. */
  datatype Confusion = Confusion(tn: real, fn: real, fp: real, tp: real)

  /** Every tag is a class label 0.0 or 1.0. */
  predicate BinaryTags(tags: seq<real>) {
    forall j :: 0 <= j < |tags| ==> tags[j] == 0.0 || tags[j] == 1.0
  }

  /** The confusion matrix of `get_confusion_matrix`: over the rows where the label
      equals the tag, tp sums the tags and tn sums `1 - tag`; over the other rows,
      fn sums the tags and fp sums `1 - tag`. Whatever the tags, the four entries
      add up to the number of rows. */
  function ConfusionOf(c: seq<Vote>, tags: seq<real>): (m: Confusion)
    requires |c| == |tags|
    ensures m.tn + m.fn + m.fp + m.tp == |c| as real
    ensures m.tp + m.fn == Sum(tags)
  {
    if c == [] then Confusion(0.0, 0.0, 0.0, 0.0)
    else
      var n := |c| - 1;
      var m := ConfusionOf(c[..n], tags[..n]);
      assert tags[..n] == tags[..|tags| - 1];
      var t := tags[n];
      if c[n] as real == t then m.(tn := m.tn + (1.0 - t), tp := m.tp + t)
      else m.(fp := m.fp + (1.0 - t), fn := m.fn + t)
  }

  function Sum(s: seq<real>): real {
    if s == [] then 0.0 else Sum(s[..|s| - 1]) + s[|s| - 1]
  }

  /** The number of rows j whose label and tag satisfy `p`. */
  function CountWhere(c: seq<Vote>, tags: seq<real>, p: (Vote, real) -> bool): (k: nat)
    requires |c| == |tags|
    ensures k <= |c|
  {
    if c == [] then 0
    else
      var n := |c| - 1;
      CountWhere(c[..n], tags[..n], p) + (if p(c[n], tags[n]) then 1 else 0)
  }

  /** Rows where `clsf != x_tag`. */
  function Mismatches(c: seq<Vote>, tags: seq<real>): nat
    requires |c| == |tags|
  {
    CountWhere(c, tags, (v: Vote, t: real) => v as real != t)
  }

  /** Rows `validate` counts as false negatives: the tag is truthy and the label is 0. */
  function FalseNegatives(c: seq<Vote>, tags: seq<real>): nat
    requires |c| == |tags|
  {
    CountWhere(c, tags, (v: Vote, t: real) => t != 0.0 && v == 0)
  }

  /** Rows `validate` counts as false positives: the tag is 0 and the label is 1. */
  function FalsePositives(c: seq<Vote>, tags: seq<real>): nat
    requires |c| == |tags|
  {
    CountWhere(c, tags, (v: Vote, t: real) => t == 0.0 && v == 1)
  }

  /** With 0/1 tags each entry of the matrix counts one kind of row. */
  lemma {:induction false} ConfusionCounts(c: seq<Vote>, tags: seq<real>)
    requires |c| == |tags| && BinaryTags(tags)
    ensures ConfusionOf(c, tags).tp == CountWhere(c, tags, (v: Vote, t: real) => t == 1.0 && v == 1) as real
    ensures ConfusionOf(c, tags).tn == CountWhere(c, tags, (v: Vote, t: real) => t == 0.0 && v == 0) as real
    ensures ConfusionOf(c, tags).fp == FalsePositives(c, tags) as real
    ensures ConfusionOf(c, tags).fn == FalseNegatives(c, tags) as real
  {
    if c != [] {
      var n := |c| - 1;
      ConfusionCounts(c[..n], tags[..n]);
    }
  }

  /** `validate`: with 0/1 tags the error rate is the sum of the two error kinds. */
  lemma {:induction false} MismatchesSplit(c: seq<Vote>, tags: seq<real>)
    requires |c| == |tags| && BinaryTags(tags)
    ensures Mismatches(c, tags) == FalsePositives(c, tags) + FalseNegatives(c, tags)
  {
    if c != [] {
      var n := |c| - 1;
      MismatchesSplit(c[..n], tags[..n]);
    }
  }

  /** The three rates `validate` returns. */
  datatype Validation = Validation(err: real, fpos: real, fneg: real)

  /** `a / b` of numpy floats, with nan (a zero denominator) as `None`. */
  function Ratio(a: real, b: real): (r: Option<real>)
    ensures r.Some? <==> b != 0.0
    ensures r.Some? ==> r.value * b == a
  {
    if b == 0.0 then None else Some(a / b)
  }

  datatype Rates = Rates(precision: Option<real>, recall: Option<real>, fposRate: Option<real>)

  /** `get_precision_recall`: precision tp/(tp+fp), recall tp/(tp+fn),
      false-positive rate fp/(tn+fp). */
  function PrecisionRecall(m: Confusion): (r: Rates)
    ensures r.precision.Some? <==> m.tp + m.fp != 0.0
    ensures r.recall.Some? <==> m.tp + m.fn != 0.0
    ensures r.fposRate.Some? <==> m.tn + m.fp != 0.0
    ensures r.precision.Some? ==> r.precision.value * (m.tp + m.fp) == m.tp
    ensures r.recall.Some? ==> r.recall.value * (m.tp + m.fn) == m.tp
    ensures r.fposRate.Some? ==> r.fposRate.value * (m.tn + m.fp) == m.fp
  {
    Rates(Ratio(m.tp, m.tp + m.fp), Ratio(m.tp, m.tp + m.fn), Ratio(m.fp, m.tn + m.fp))
  }

  predicate InUnit(r: Option<real>) {
    r.Some? ==> 0.0 <= r.value <= 1.0
  }

  lemma RatioInUnit(a: real, b: real)
    requires 0.0 <= a && 0.0 <= b - a
    ensures InUnit(Ratio(a, b))
  {
    if b != 0.0 {
      var r := a / b;
      assert r * b == a;
    }
  }

  /** With 0/1 tags every defined rate lies in [0, 1]. */
  lemma RatesInUnit(c: seq<Vote>, tags: seq<real>)
    requires |c| == |tags| && BinaryTags(tags)
    ensures var r := PrecisionRecall(ConfusionOf(c, tags));
            InUnit(r.precision) && InUnit(r.recall) && InUnit(r.fposRate)
  {
    var m := ConfusionOf(c, tags);
    assert 0.0 <= m.tp && 0.0 <= m.tn && 0.0 <= m.fp && 0.0 <= m.fn by {
      ConfusionCounts(c, tags);
    }
    NonnegativeRates(m);
  }

  lemma NonnegativeRates(m: Confusion)
    requires 0.0 <= m.tp && 0.0 <= m.tn && 0.0 <= m.fp && 0.0 <= m.fn
    ensures var r := PrecisionRecall(m);
            InUnit(r.precision) && InUnit(r.recall) && InUnit(r.fposRate)
  {
    RatioInUnit(m.tp, m.tp + m.fp);
    RatioInUnit(m.tp, m.tp + m.fn);
    RatioInUnit(m.fp, m.tn + m.fp);
  }

  /** A point of a curve; an undefined coordinate is `None`. */
  datatype Point = Point(x: Option<real>, y: Option<real>)

  /** A precision-recall curve point: `[recall, precision]`. */
  function PRPoint(m: Confusion): (p: Point)
    ensures p.x == PrecisionRecall(m).recall && p.y == PrecisionRecall(m).precision
  {
    var r := PrecisionRecall(m);
    Point(r.recall, r.precision)
  }

  /** A ROC point: `[fpos_rate, recall]`. */
  function ROCPoint(m: Confusion): (p: Point)
    ensures p.x == PrecisionRecall(m).fposRate && p.y == PrecisionRecall(m).recall
  {
    var r := PrecisionRecall(m);
    Point(r.fposRate, r.recall)
  }

  lemma {:induction false} CountWherePointwise(c1: seq<Vote>, c2: seq<Vote>, tags: seq<real>, p: (Vote, real) -> bool)
    requires |c1| == |c2| == |tags|
    requires forall j :: 0 <= j < |tags| ==> p(c2[j], tags[j]) ==> p(c1[j], tags[j])
    ensures CountWhere(c2, tags, p) <= CountWhere(c1, tags, p)
  {
    if c1 != [] {
      var n := |c1| - 1;
      CountWherePointwise(c1[..n], c2[..n], tags[..n], p);
    }
  }

  /** Along a threshold sweep the ROC curve moves down and left: raising the
      threshold never increases the true positives nor the false positives,
      and the number of scam rows tp + fn stays fixed. */
  lemma ConfusionMonotone(es: seq<Learner>, x: seq<Row>, tags: seq<real>, t1: real, t2: real)
    requires |es| > 0 && |tags| == |x| && BinaryTags(tags) && t1 <= t2
    ensures var m1 := ConfusionOf(Classification(es, x, t1), tags);
            var m2 := ConfusionOf(Classification(es, x, t2), tags);
            m2.tp <= m1.tp && m2.fp <= m1.fp && m2.tp + m2.fn == m1.tp + m1.fn
  {
    var c1 := Classification(es, x, t1);
    var c2 := Classification(es, x, t2);
    ClassificationMonotone(es, x, t1, t2);
    ConfusionCounts(c1, tags);
    ConfusionCounts(c2, tags);
    CountWherePointwise(c1, c2, tags, (v: Vote, t: real) => t == 1.0 && v == 1);
    CountWherePointwise(c1, c2, tags, (v: Vote, t: real) => t == 0.0 && v == 1);
  }
}
