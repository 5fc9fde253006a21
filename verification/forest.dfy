/** `BalRandomForest`: a balanced random forest, an ensemble of decision trees
    each fitted on a class-balanced bootstrap sample of the tagged pools. */
module Forest {
  import opened Wrappers
  import opened Sequences
  import opened Voting
  import opened Evaluation
  import opened Sampling

  /** `DecisionTreeClassifier().fit(features, labels)`, opaque to the ensemble. */
  type Fitter = (seq<Row>, seq<real>) -> Learner

  predicate NonEmptyRows(s: seq<Row>) {
    forall i :: 0 <= i < |s| ==> |s[i]| > 0
  }

  /** `sample[:, :-1]`: the feature columns. */
  function Features(s: seq<Row>): seq<Row>
    requires NonEmptyRows(s)
  {
    seq(|s|, i requires 0 <= i < |s| => s[i][..|s[i]| - 1])
  }

  /** `sample[:, -1]`: the tag column. */
  function Labels(s: seq<Row>): seq<real>
    requires NonEmptyRows(s)
  {
    seq(|s|, i requires 0 <= i < |s| => s[i][|s[i]| - 1])
  }

  /** The estimator fitted on one training sample. */
  function FitOn(fit: Fitter, s: seq<Row>): Learner
    requires NonEmptyRows(s)
  {
    fit(Features(s), Labels(s))
  }

  /** `_add_tags`: append tag 0 to every legit row and tag 1 to every scam row,
      then shuffle each pool. */
  method AddTags(legit: seq<Row>, scams: seq<Row>, legitPerm: seq<nat>, scamsPerm: seq<nat>)
    returns (taggedLegit: seq<Row>, taggedScams: seq<Row>)
    requires IsPermutation(legitPerm, |legit|) && IsPermutation(scamsPerm, |scams|)
    ensures taggedLegit == Shuffle(Tagged(legit, 0.0), legitPerm)
    ensures taggedScams == Shuffle(Tagged(scams, 1.0), scamsPerm)
    ensures AllTagged(taggedLegit, 0.0) && AllTagged(taggedScams, 1.0)
  {
    taggedLegit := Tagged(legit, 0.0);
    taggedScams := Tagged(scams, 1.0);
    ShuffleKeepsTags(taggedLegit, legitPerm, 0.0);
    ShuffleKeepsTags(taggedScams, scamsPerm, 1.0);
    taggedLegit := Shuffle(taggedLegit, legitPerm);
    taggedScams := Shuffle(taggedScams, scamsPerm);
  }

  /** The two tagged pools and the training fraction are set once, by the
      constructor; the samples and the estimators are reassigned by the methods. */
  class BalRandomForest {
    const taggedLegit: seq<Row>
    const taggedScams: seq<Row>
    const trainSize: real
    var testSample: seq<Row>
    var trainSample: seq<Row>
    var estimators: seq<Learner>

    /** The training fraction is a fraction and both pools carry their class tags. */
    ghost predicate Valid() {
      0.0 <= trainSize <= 1.0 && AllTagged(taggedLegit, 0.0) && AllTagged(taggedScams, 1.0)
    }

    /** The per-class test size, recomputed from the current scam pool. */
    function CurrentTestSize(): (ts: nat)
      requires 0.0 <= trainSize <= 1.0
      ensures ts <= |taggedScams|
    {
      TestSize(trainSize, |taggedScams|)
    }

    /** `d` has the shapes numpy would draw for the current pools. */
    ghost predicate Fits(d: Draw)
      requires 0.0 <= trainSize <= 1.0
    {
      DrawFits(d, |TrainSlice(taggedScams, CurrentTestSize())|, |TrainSlice(taggedLegit, CurrentTestSize())|)
    }

    /** The bootstrap sample that draw `d` yields from the current pools. */
    ghost function SampleOf(d: Draw): (r: Option<seq<Row>>)
      requires Valid() && Fits(d)
      ensures r.Some? ==> NonEmptyRows(r.value)
    {
      var r := BalancedSample(taggedLegit, taggedScams, CurrentTestSize(), d);
      if r.Some? then BalancedSampleBalanced(taggedLegit, taggedScams, CurrentTestSize(), d); r else r
    }

    /** `__init__`: keep the pools, tag and shuffle them, start with no samples and no estimators. */
    constructor (legit: seq<Row>, scams: seq<Row>, trainSize: real, legitPerm: seq<nat>, scamsPerm: seq<nat>)
      requires 0.0 <= trainSize <= 1.0
      requires IsPermutation(legitPerm, |legit|) && IsPermutation(scamsPerm, |scams|)
      ensures Valid()
      ensures taggedLegit == Shuffle(Tagged(legit, 0.0), legitPerm)
      ensures taggedScams == Shuffle(Tagged(scams, 1.0), scamsPerm)
      ensures testSample == [[]] && trainSample == [[]] && estimators == []
      ensures this.trainSize == trainSize
    {
      var l, s := AddTags(legit, scams, legitPerm, scamsPerm);
      taggedLegit := l;
      taggedScams := s;
      testSample := [[]];
      trainSample := [[]];
      estimators := [];
      this.trainSize := trainSize;
    }

    /** `allocate_test_sample`: the last `test_size` rows of each pool, joined and shuffled. */
    method AllocateTestSample(perm: seq<nat>)
      requires Valid()
      requires IsPermutation(perm, |TestSlice(taggedLegit, CurrentTestSize())| + |TestSlice(taggedScams, CurrentTestSize())|)
      modifies this`testSample
      ensures testSample == TestSample(taggedLegit, taggedScams, CurrentTestSize(), perm)
    {
      var ts := TestSize(trainSize, |taggedScams|);
      testSample := TestSlice(taggedLegit, ts) + TestSlice(taggedScams, ts);
      testSample := Shuffle(testSample, perm);
    }

    /** `_prep_bal_data`: store a fresh balanced bootstrap sample. With an empty scam
        remainder (numpy's ValueError from `randint(0)`) or an out-of-range legit
        index (numpy's IndexError) the sample is left as it was and `ok` is false. */
    method PrepBalData(d: Draw) returns (ok: bool)
      requires Valid() && Fits(d)
      modifies this`trainSample
      ensures ok == SampleOf(d).Some?
      ensures trainSample == if ok then SampleOf(d).value else old(trainSample)
    {
      var ts := TestSize(trainSize, |taggedScams|);
      var trainScamsSize := |taggedScams| - ts;
      var remScams := TrainSlice(taggedScams, ts);
      var remLegit := TrainSlice(taggedLegit, ts);
      assert |remScams| == trainScamsSize;
      var bootScams := Shuffle(remScams, d.scamsPerm);
      var bootLegit := Shuffle(remLegit, d.legitPerm);
      if trainScamsSize == 0 {
        return false;
      }
      if !InBounds(d.legitIdx, |bootLegit|) {
        return false;
      }
      bootLegit := Gather(bootLegit, d.legitIdx);
      bootScams := Gather(bootScams, d.scamsIdx);
      var sample := bootScams + bootLegit;
      trainSample := Shuffle(sample, d.joinPerm);
      ok := true;
    }

    /** One iteration of `train`: draw a balanced sample and append the
        estimator fitted on it. A failed draw appends nothing. */
    method FitNext(fit: Fitter, d: Draw) returns (ok: bool)
      requires Valid() && Fits(d)
      modifies this`estimators, this`trainSample
      ensures ok == SampleOf(d).Some?
      ensures trainSample == if ok then SampleOf(d).value else old(trainSample)
      ensures ok ==> estimators == old(estimators) + [FitOn(fit, SampleOf(d).value)]
      ensures !ok ==> estimators == old(estimators)
    {
      ok := PrepBalData(d);
      if ok {
        var clf := fit(Features(trainSample), Labels(trainSample));
        estimators := estimators + [clf];
      }
    }

    /** The state after m successful iterations of `train`: estimator j is the fit
        on the sample of draw j, and the stored sample is the last one drawn. */
    ghost predicate FittedFrom(fits: seq<Fitter>, draws: seq<Draw>, m: nat)
      reads this`estimators, this`trainSample
      requires Valid() && m <= |draws| && m <= |fits|
      requires forall j :: 0 <= j < |draws| ==> Fits(draws[j])
    {
      && |estimators| == m
      && (forall j :: 0 <= j < m ==>
            SampleOf(draws[j]).Some? && estimators[j] == FitOn(fits[j], SampleOf(draws[j]).value))
      && (m > 0 ==> trainSample == SampleOf(draws[m - 1]).value)
    }

    /** Iteration k of `train`: a successful draw extends the fitted prefix by one
        estimator; a failed one leaves the state as it was. */
    method FitStep(fits: seq<Fitter>, draws: seq<Draw>, k: nat) returns (ok: bool)
      requires Valid() && k < |draws| && k < |fits|
      requires forall j :: 0 <= j < |draws| ==> Fits(draws[j])
      requires FittedFrom(fits, draws, k)
      modifies this`estimators, this`trainSample
      ensures ok == SampleOf(draws[k]).Some?
      ensures ok ==> FittedFrom(fits, draws, k + 1)
      ensures !ok ==> FittedFrom(fits, draws, k) && trainSample == old(trainSample)
    {
      ok := FitNext(fits[k], draws[k]);
    }

    /** `train(n)`: empty the ensemble, then for each of the n iterations draw a
        balanced sample and append the estimator fitted on it. Iteration k
        draws `draws[k]` and fits a fresh tree whose own random feature choices
        are `fits[k]`. A failed draw aborts the run, leaving the estimators
        fitted so far and the last sample drawn. */
    method Train(n: int, fits: seq<Fitter>, draws: seq<Draw>) returns (ok: bool)
      requires Valid()
      requires n <= |draws| && n <= |fits|
      requires forall k :: 0 <= k < |draws| ==> Fits(draws[k])
      modifies this`estimators, this`trainSample
      ensures Valid()
      ensures ok ==> |estimators| == if n < 0 then 0 else n
      ensures !ok ==> |estimators| < n && SampleOf(draws[|estimators|]).None?
      ensures forall k :: 0 <= k < |estimators| ==>
                SampleOf(draws[k]).Some? && estimators[k] == FitOn(fits[k], SampleOf(draws[k]).value)
      ensures |estimators| > 0 ==> trainSample == SampleOf(draws[|estimators| - 1]).value
      ensures |estimators| == 0 ==> trainSample == old(trainSample)
    {
      estimators := [];
      var rounds := if n < 0 then 0 else n;
      var k := 0;
      while k < rounds
        invariant 0 <= k <= rounds
        invariant FittedFrom(fits, draws, k)
        invariant k == 0 ==> trainSample == old(trainSample)
      {
        var fitted := FitStep(fits, draws, k);
        if !fitted {
          return false;
        }
        k := k + 1;
      }
      ok := true;
    }

    /** `predict`: per row, the mean of the estimators' labels; nan (`None`) with no estimators. */
    method Predict(x: seq<Row>) returns (r: Option<seq<real>>)
      ensures r.None? <==> |estimators| == 0
      ensures r.Some? ==> |r.value| == |x|
      ensures r.Some? ==> forall j :: 0 <= j < |x| ==> r.value[j] == Score(estimators, x[j])
    {
      r := MeanVotes(estimators, x);
    }

    /** `classify`: 1 exactly where the prediction is at least the threshold.
        With no estimators the prediction is nan and `len` raises (`None`). */
    method Classify(x: seq<Row>, threshold: real) returns (r: Option<seq<Vote>>)
      ensures r.None? <==> |estimators| == 0
      ensures r.Some? ==> |r.value| == |x|
      ensures r.Some? ==> forall j :: 0 <= j < |x| ==> (r.value[j] == 1 <==> Score(estimators, x[j]) >= threshold)
      ensures r.Some? ==> r.value == Classification(estimators, x, threshold)
    {
      var pred := Predict(x);
      if pred.None? {
        return None;
      }
      var c := Threshold(pred.value, threshold);
      r := Some(c);
    }

    /** `validate`: the error rate and the false-positive and false-negative counts,
        all three divided by the number of rows N. `None` when classification
        fails or N is zero (a ZeroDivisionError). */
    method Validate(x: seq<Row>, xTag: seq<real>) returns (r: Option<Validation>)
      requires |xTag| == |x|
      ensures r.Some? <==> |estimators| > 0 && |x| > 0
      ensures r.Some? ==>
                var c := Classification(estimators, x, 0.5);
                var n := |x| as real;
                && r.value.err == Mismatches(c, xTag) as real / n
                && r.value.fpos == FalsePositives(c, xTag) as real / n
                && r.value.fneg == FalseNegatives(c, xTag) as real / n
    {
      var classified := Classify(x, 0.5);
      if classified.None? {
        return None;
      }
      var clsf := classified.value;
      var nErr := Mismatches(clsf, xTag);
      if |xTag| == 0 {
        return None;
      }
      var err := nErr as real / |xTag| as real;
      var nFpos, nFneg := 0, 0;
      var t := 0;
      while t < |xTag|
        invariant 0 <= t <= |xTag|
        invariant nFneg == FalseNegatives(clsf[..t], xTag[..t])
        invariant nFpos == FalsePositives(clsf[..t], xTag[..t])
      {
        assert clsf[..t + 1][..t] == clsf[..t] && xTag[..t + 1][..t] == xTag[..t];
        if xTag[t] != 0.0 && clsf[t] == 0 {
          nFneg := nFneg + 1;
        } else if xTag[t] == 0.0 && clsf[t] == 1 {
          nFpos := nFpos + 1;
        }
        t := t + 1;
      }
      assert clsf[..t] == clsf && xTag[..t] == xTag;
      r := Some(Validation(err, nFpos as real / |xTag| as real, nFneg as real / |xTag| as real));
    }

    /** `get_confusion_matrix` at a threshold. */
    method GetConfusionMatrix(x: seq<Row>, xTag: seq<real>, threshold: real) returns (r: Option<Confusion>)
      requires |xTag| == |x|
      ensures r.None? <==> |estimators| == 0
      ensures r.Some? ==> r.value == ConfusionOf(Classification(estimators, x, threshold), xTag)
    {
      var clsf := Classify(x, threshold);
      if clsf.None? {
        return None;
      }
      r := Some(ConfusionOf(clsf.value, xTag));
    }

    /** `get_recall_precision_curve`: one `[recall, precision]` point per threshold, in the caller's order. */
    method GetRecallPrecisionCurve(x: seq<Row>, xTag: seq<real>, thresholds: seq<real>) returns (r: Option<seq<Point>>)
      requires |xTag| == |x|
      ensures r.None? <==> |estimators| == 0 && |thresholds| > 0
      ensures r.Some? ==> |r.value| == |thresholds|
      ensures r.Some? && |thresholds| > 0 ==> forall i :: 0 <= i < |thresholds| ==>
                r.value[i] == PRPoint(ConfusionOf(Classification(estimators, x, thresholds[i]), xTag))
    {
      var curve: seq<Point> := [];
      for i := 0 to |thresholds|
        invariant |curve| == i
        invariant i > 0 ==> |estimators| > 0
        invariant forall k :: 0 <= k < i ==>
                    curve[k] == PRPoint(ConfusionOf(Classification(estimators, x, thresholds[k]), xTag))
      {
        var confMat := GetConfusionMatrix(x, xTag, thresholds[i]);
        if confMat.None? {
          return None;
        }
        var rates := PrecisionRecall(confMat.value);
        curve := curve + [Point(rates.recall, rates.precision)];
      }
      r := Some(curve);
    }

    /** `get_ROC_point`: `[fpos_rate, recall]` at one threshold. */
    method GetROCPoint(x: seq<Row>, xTag: seq<real>, threshold: real) returns (r: Option<Point>)
      requires |xTag| == |x|
      ensures r.None? <==> |estimators| == 0
      ensures r.Some? ==> r.value == ROCPoint(ConfusionOf(Classification(estimators, x, threshold), xTag))
    {
      var confMat := GetConfusionMatrix(x, xTag, threshold);
      if confMat.None? {
        return None;
      }
      var rates := PrecisionRecall(confMat.value);
      r := Some(Point(rates.fposRate, rates.recall));
    }

    /** `get_ROC_curve`: one ROC point per threshold, in the caller's order. */
    method GetROCCurve(x: seq<Row>, xTag: seq<real>, thresholds: seq<real>) returns (r: Option<seq<Point>>)
      requires |xTag| == |x|
      ensures r.None? <==> |estimators| == 0 && |thresholds| > 0
      ensures r.Some? ==> |r.value| == |thresholds|
      ensures r.Some? && |thresholds| > 0 ==> forall i :: 0 <= i < |thresholds| ==>
                r.value[i] == ROCPoint(ConfusionOf(Classification(estimators, x, thresholds[i]), xTag))
    {
      var roc: seq<Point> := [];
      for i := 0 to |thresholds|
        invariant |roc| == i
        invariant i > 0 ==> |estimators| > 0
        invariant forall k :: 0 <= k < i ==>
                    roc[k] == ROCPoint(ConfusionOf(Classification(estimators, x, thresholds[k]), xTag))
      {
        var point := GetROCPoint(x, xTag, thresholds[i]);
        if point.None? {
          return None;
        }
        roc := roc + [point.value];
      }
      r := Some(roc);
    }
  }
}
