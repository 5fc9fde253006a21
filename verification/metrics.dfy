/** `Metric.format_metrics` and its helpers: the seven-column feature row of a
    listing, and the `Ensemble` vote averager. */
module Metrics {
  import opened Wrappers
  import opened Sequences
  import opened Text
  import opened Voting
  import opened Listings

  /** `get_perc_diff([lon, lat], nprice)`: the relative difference between a
      price per room and the median of its 20 nearest neighbours. The
      neighbour search is not modelled; `None` stands for an infinite price per room. */
  type PercDiff = (real, real, Option<real>) -> real

  /** A presence flag as a feature value. */
  function Flag(present: bool): real {
    if present then 1.0 else 0.0
  }

  /** Column 6: the price difference, or 0 when price, bedrooms or location is missing. */
  function NPriceDiff(l: Listing, percDiff: PercDiff): real {
    if HasPriceAndLocation(l) then percDiff(l.lon, l.lat, NPrice(l.price, l.nbr)) else 0.0
  }

  predicate IsCapital(c: char) {
    'A' <= c <= 'Z'
  }

  /** The number of `[A-Z]` matches in a post. */
  function Capitals(s: string): (n: nat)
    ensures n <= |s|
  {
    CountIf(s, IsCapital)
  }

  /** The capital-letter fraction of a non-empty post. */
  function CapRatio(s: string): real
    requires |s| > 0
  {
    Capitals(s) as real / |s| as real
  }

  /** The feature row of one listing, columns in the order
      loc, phn, nbr, prc, capfrac, n_words, nprice_diff. */
  function MetricRow(l: Listing, percDiff: PercDiff): Row
    requires |l.post| > 0
  {
    [ Flag(l.lat != -1.0), Flag(l.phone != -1), Flag(l.nbr != -1), Flag(l.price != -1.0),
      CapRatio(l.post), WordCount(l.post) as real, NPriceDiff(l, percDiff) ]
  }

  /** A fraction of a count that does not exceed its total lies in [0, 1]. */
  lemma FractionInUnit(c: nat, n: nat)
    requires 0 < n && c <= n
    ensures 0.0 <= c as real / n as real <= 1.0
  {
    var r := c as real / n as real;
    assert r * n as real == c as real;
  }

  /** The capital-letter fraction of a non-empty post lies in [0, 1]; it is 0
      exactly when the post has no capital and 1 exactly when every character is one. */
  lemma CapRatioInUnit(s: string)
    requires |s| > 0
    ensures 0.0 <= CapRatio(s) <= 1.0
    ensures CapRatio(s) == 0.0 <==> Capitals(s) == 0
    ensures (forall i :: 0 <= i < |s| ==> IsCapital(s[i])) ==> CapRatio(s) == 1.0
  {
    FractionInUnit(Capitals(s), |s|);
    CountIfAll(s, IsCapital);
  }

  /** The columns of a feature row: flags that are 1 exactly when their field
      is not -1 (location judged by latitude only), a capital fraction in
      [0, 1], the word count, and a price difference that is 0 whenever
      price, bedrooms or location is missing. */
  lemma MetricRowColumns(l: Listing, percDiff: PercDiff)
    requires |l.post| > 0
    ensures var row := MetricRow(l, percDiff);
      && |row| == 7
      && (row[0] == 1.0 <==> l.lat != -1.0) && (row[0] == 0.0 <==> l.lat == -1.0)
      && (row[1] == 1.0 <==> l.phone != -1) && (row[1] == 0.0 <==> l.phone == -1)
      && (row[2] == 1.0 <==> l.nbr != -1) && (row[2] == 0.0 <==> l.nbr == -1)
      && (row[3] == 1.0 <==> l.price != -1.0) && (row[3] == 0.0 <==> l.price == -1.0)
      && 0.0 <= row[4] <= 1.0
      && row[5] == WordCount(l.post) as real
      && (!HasPriceAndLocation(l) ==> row[6] == 0.0)
      && (HasPriceAndLocation(l) ==> row[6] == percDiff(l.lon, l.lat, NPrice(l.price, l.nbr)))
  {
    CapRatioInUnit(l.post);
  }

  /** `get_nprice_bin` on a computed difference: 0 below -0.34, 2 above 0.34, 1 otherwise. */
  function PriceBin(diff: real): (b: int)
    ensures 0 <= b <= 2
  {
    if diff < -0.34 then 0 else if diff > 0.34 then 2 else 1
  }

  /** `get_nprice_bin(loc_arr, nprice)`. */
  function NPriceBin(percDiff: PercDiff, lon: real, lat: real, nprice: real): (b: int)
    ensures 0 <= b <= 2
  {
    PriceBin(percDiff(lon, lat, Some(nprice)))
  }

  /** Both thresholds belong to the middle bin, and each bin is exactly its interval. */
  lemma PriceBinIntervals(diff: real)
    ensures PriceBin(diff) == 0 <==> diff < -0.34
    ensures PriceBin(diff) == 2 <==> diff > 0.34
    ensures PriceBin(diff) == 1 <==> -0.34 <= diff <= 0.34
    ensures PriceBin(-0.34) == 1 && PriceBin(0.34) == 1
  {
  }

  /** A larger difference never lands in a lower bin. */
  lemma PriceBinMonotone(d1: real, d2: real)
    requires d1 <= d2
    ensures PriceBin(d1) <= PriceBin(d2)
  {
  }

  /** `get_cap_fraction`: the capital-letter fraction of every post. An empty
      post divides by zero and raises (`None`). */
  method CapFraction(posts: seq<string>) returns (r: Option<seq<real>>)
    ensures r.None? <==> exists i :: 0 <= i < |posts| && |posts[i]| == 0
    ensures r.Some? ==> |r.value| == |posts|
    ensures r.Some? ==> forall i :: 0 <= i < |posts| ==> |posts[i]| > 0 && r.value[i] == CapRatio(posts[i])
    ensures r.Some? ==> forall i :: 0 <= i < |posts| ==> 0.0 <= r.value[i] <= 1.0
  {
    var ncapfrac: seq<real> := [];
    for i := 0 to |posts|
      invariant |ncapfrac| == i
      invariant forall k :: 0 <= k < i ==> |posts[k]| > 0 && ncapfrac[k] == CapRatio(posts[k])
      invariant forall k :: 0 <= k < i ==> 0.0 <= ncapfrac[k] <= 1.0
    {
      var nCap := CountIf(posts[i], IsCapital);
      var nTotal := |posts[i]| as real;
      if nTotal == 0.0 {
        return None;
      }
      CapRatioInUnit(posts[i]);
      ncapfrac := ncapfrac + [nCap as real / nTotal];
    }
    r := Some(ncapfrac);
  }

  /** `get_n_words`: the number of whitespace-separated tokens of every post. */
  method NWords(posts: seq<string>) returns (r: seq<nat>)
    ensures |r| == |posts|
    ensures forall i :: 0 <= i < |posts| ==> r[i] == WordCount(posts[i])
    ensures forall i :: 0 <= i < |posts| ==> (r[i] == 0 <==> forall j :: 0 <= j < |posts[i]| ==> IsSpace(posts[i][j]))
  {
    r := [];
    for i := 0 to |posts|
      invariant |r| == i
      invariant forall k :: 0 <= k < i ==> r[k] == WordCount(posts[k])
    {
      r := r + [WordCount(posts[i])];
    }
  }

  /** `format_metrics`: one seven-column feature row per listing. Any empty post
      makes the capital-fraction step raise (`None`). */
  method FormatMetrics(listings: seq<Listing>, percDiff: PercDiff) returns (r: Option<seq<Row>>)
    ensures r.None? <==> exists i :: 0 <= i < |listings| && |listings[i].post| == 0
    ensures r.Some? ==> |r.value| == |listings|
    ensures r.Some? ==> forall i :: 0 <= i < |listings| ==>
              |listings[i].post| > 0 && r.value[i] == MetricRow(listings[i], percDiff)
  {
    var n := |listings|;
    var locFlag := seq(n, i requires 0 <= i < n => Flag(listings[i].lat != -1.0));
    var phnFlag := seq(n, i requires 0 <= i < n => Flag(listings[i].phone != -1));
    var nbrFlag := seq(n, i requires 0 <= i < n => Flag(listings[i].nbr != -1));
    var prcFlag := seq(n, i requires 0 <= i < n => Flag(listings[i].price != -1.0));
    var posts := seq(n, i requires 0 <= i < n => listings[i].post);
    var nCapfrac := CapFraction(posts);
    if nCapfrac.None? {
      var k :| 0 <= k < n && |posts[k]| == 0;
      assert |listings[k].post| == 0;
      return None;
    }
    forall i | 0 <= i < n ensures |listings[i].post| > 0 {
      assert posts[i] == listings[i].post;
    }
    var npriceDiff: seq<real> := [];
    for i := 0 to n
      invariant |npriceDiff| == i
      invariant forall k :: 0 <= k < i ==> npriceDiff[k] == NPriceDiff(listings[k], percDiff)
    {
      var l := listings[i];
      if l.price != -1.0 && l.nbr != -1 && l.lat != -1.0 && l.lon != -1.0 {
        var nprice := NPrice(l.price, l.nbr);
        npriceDiff := npriceDiff + [percDiff(l.lon, l.lat, nprice)];
      } else {
        npriceDiff := npriceDiff + [0.0];
      }
    }
    var nWords := NWords(posts);
    var capfrac := nCapfrac.value;
    r := Some(seq(n, i requires 0 <= i < n =>
      [locFlag[i], phnFlag[i], nbrFlag[i], prcFlag[i], capfrac[i], nWords[i] as real, npriceDiff[i]]));
  }

  /** The model `Ensemble` wraps: a fixed list of fitted learners. */
  class Ensemble {
    const estimators: seq<Learner>

    constructor (clfModel: seq<Learner>)
      ensures estimators == clfModel
    {
      estimators := clfModel;
    }

    /** `epredict`: per row, the mean of the estimators' labels, the same score
        as `BalRandomForest.predict`; nan (`None`) with no estimators. */
    method EPredict(x: seq<Row>) returns (r: Option<seq<real>>)
      ensures r.None? <==> |estimators| == 0
      ensures r.Some? ==> |r.value| == |x|
      ensures r.Some? ==> forall j :: 0 <= j < |x| ==> r.value[j] == Score(estimators, x[j])
    {
      r := MeanVotes(estimators, x);
    }

    /** `eclassify`: 1 exactly where the mean vote reaches the threshold, one
        label per row. */
    method EClassify(x: seq<Row>, threshold: real) returns (r: Option<seq<Vote>>)
      ensures r.None? <==> |estimators| == 0
      ensures r.Some? ==> |r.value| == |x|
      ensures r.Some? ==> forall j :: 0 <= j < |x| ==> (r.value[j] == 1 <==> Score(estimators, x[j]) >= threshold)
    {
      var pred := EPredict(x);
      if pred.None? {
        return None;
      }
      var c := Threshold(pred.value, threshold);
      r := Some(c);
    }
  }
}
