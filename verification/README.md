# LessSketchy in Dafny

LessSketchy flags Craigslist apartment listings that look like scams. A scraper
turns each listing row into a record: pid, headline, coordinates, price,
bedroom count, phone, link and cleaned post body, with `-1` for a missing
value. A review step merges the scrape files, drops duplicate pids and
listings without a post. `Metric` turns every listing into a seven-column
feature row. `BalRandomForest` is an ensemble of decision trees, each fitted
on a class-balanced bootstrap sample of legit and scam rows. It scores a row
by the mean of its trees' votes and labels the row a scam when the score
reaches a threshold. The front end turns the score into a risk button and a
five-line hover hint.

The model is split into these modules:

- `Sampling` covers the tag column, the test size and the slices.
- `Voting` covers vote averaging and thresholding.
- `Evaluation` covers the confusion matrix, the rates and the validation counts.
- `Forest` holds `_add_tags` and the `BalRandomForest` class. The tagged pools
  and the train size are set once, by the constructor. The samples and the
  estimators are fields that the methods reassign, as in the source.
- `Metrics` holds the feature rows and `Ensemble`.
- `FrontFormatting` holds the button and the hint.
- `ReviewTool` covers duplicate and no-post removal and the price table.
- `Scraping` holds the `ScrapeTool` helpers.
- `Query` holds the `Query` helpers.
- `RegexSubs` holds the substitutions both text cleaners chain.

Randomness enters as parameters:

- a `np.random.permutation` result is a sequence holding each index exactly once;
- a `np.random.randint` draw is a sequence of bounded indices.

A fitted tree is a total function from a row to a label 0 or 1. Fitting is a
function-valued parameter. Each tree gets its own fitter, which stands for the
random feature choices of that tree. nan, inf and raised exceptions become `None`.
Arithmetic is on exact reals.

## Model

| member | source | states |
|---|---|---|
| Sampling.Tagged | bRandomForest.py:37-42 | every row gains one last column, the class tag, and keeps its features |
| Sampling.ShuffleKeepsTags | bRandomForest.py:44-45 | shuffling a tagged pool keeps every row tagged |
| Sequences.FilterPositions | reviewTool.py:56-57 | each row a filter keeps sits at an input position holding it, and those positions increase |
| Sequences.ShuffleMultiset | bRandomForest.py:44-45 | indexing by a permutation keeps every row, each as often as before |
| Sampling.CountTagShuffle | bRandomForest.py:56-57 | shuffling changes no class count |
| Sampling.TestSize | bRandomForest.py:52 | the test size is the floor of (1 - train_size) times the scam count, so it never exceeds that count |
| Sampling.SlicesPartition | bRandomForest.py:53-54 | the training remainder followed by the test slice is the pool, so no row is in both |
| Sampling.AsWrittenAgrees | bRandomForest.py:53-54 | for a test size from 1 to the pool size the corrected slices equal `pool[-ts:]` and `pool[:n-ts]` |
| Sampling.AsWrittenZeroTestSize | bRandomForest.py:53-54 | with test size 0, `pool[-0:]` and `pool[:n-0]` are both the whole pool |
| Sampling.ZeroTestSizeExample | bRandomForest.py:52 | train_size 0.8 with four scam rows gives test size 0 |
| Sampling.AsWrittenShortPool | bRandomForest.py:53-68 | when the legit pool is shorter than the test size, the test slice is the whole pool and the training slice wraps around to a non-empty prefix |
| Sampling.TestSampleBalanced | bRandomForest.py:52-57 | the test sample holds test_size scam rows and test_size legit rows |
| Sampling.BalancedSampleBalanced | bRandomForest.py:64-78 | a bootstrap sample has m scam rows and m legit rows, m being the scam remainder size |
| Sampling.BalancedSampleFromTraining | bRandomForest.py:67-78 | every bootstrap row comes from a training remainder, never from a test slice |
| Sampling.BalancedSampleDefined | bRandomForest.py:72-73 | with a non-empty scam remainder and at least as many legit rows as scam rows, every draw gives a sample |
| Sampling.BalancedSampleNoScams | bRandomForest.py:65-72 | with an empty scam remainder no draw gives a sample, because `randint(0)` raises |
| Sampling.BalancedSampleCanFail | bRandomForest.py:72-73 | with fewer legit than scam training rows some draw indexes past the legit remainder |
| Forest.BalRandomForest.constructor | bRandomForest.py:18-31 | the pools are tagged and shuffled, the samples and estimators start empty, and the train size is stored |
| Forest.AddTags | bRandomForest.py:33-45 | each pool becomes its tagged rows in the drawn order, and all rows carry their class tag |
| Forest.BalRandomForest.AllocateTestSample | bRandomForest.py:47-57 | the test sample is the two test slices joined and shuffled |
| Forest.BalRandomForest.PrepBalData | bRandomForest.py:59-78 | the stored sample is the balanced bootstrap of the draw; an empty scam remainder or an out-of-range legit index fails and leaves the sample as it was |
| Forest.BalRandomForest.FitNext | bRandomForest.py:88-91 | an iteration stores the draw's bootstrap sample and appends the estimator fitted on it, or changes nothing when the draw fails |
| Forest.BalRandomForest.FitStep | bRandomForest.py:87-91 | after a successful iteration k, estimators 0..k are the fits on samples 0..k and the stored sample is sample k; a failed one changes nothing |
| Forest.BalRandomForest.Train | bRandomForest.py:80-91 | estimator k is tree k's fit on the bootstrap sample of draw k; there are n of them, or the run stops at the first failed draw; the stored sample is the last one drawn, or the old one if none was |
| Forest.BalRandomForest.Predict | bRandomForest.py:93-103 | each row's prediction is the fraction of estimators voting 1; with no estimators there is none |
| Forest.BalRandomForest.Classify | bRandomForest.py:105-116 | a row is labelled 1 exactly when its score is at least the threshold |
| Forest.BalRandomForest.Validate | bRandomForest.py:118-141 | the error rate and the false-positive and false-negative counts are each divided by N; nothing is returned for no estimators or no rows |
| Forest.BalRandomForest.GetConfusionMatrix | bRandomForest.py:143-157 | the matrix is the confusion of the classification at the threshold |
| Forest.BalRandomForest.GetRecallPrecisionCurve | bRandomForest.py:172-181 | one (recall, precision) point per threshold, in order |
| Forest.BalRandomForest.GetROCPoint | bRandomForest.py:193-199 | the point is (false-positive rate, recall) at the threshold |
| Forest.BalRandomForest.GetROCCurve | bRandomForest.py:183-191 | one ROC point per threshold, in order |
| Voting.Score | bRandomForest.py:99-103 | the mean vote lies in [0, 1] |
| Voting.MeanVotes | bRandomForest.py:99-103 | the loop's sums give each row's mean vote; with no learners the result is nan |
| Voting.Threshold | bRandomForest.py:113-116 | a label is 1 exactly where the prediction reaches the threshold |
| Voting.ScoreOfOne | bRandomForest.py:99-103 | a single tree's score is its own label |
| Voting.ScoreUniform | bRandomForest.py:99-103 | learners that agree give their common label as the score |
| Voting.ClassificationInclusive | bRandomForest.py:113 | a score equal to the threshold counts as a scam |
| Voting.ClassificationMonotone | bRandomForest.py:113-115 | raising the threshold never turns a 0 into a 1 |
| Evaluation.ConfusionOf | bRandomForest.py:147-157 | the four entries add up to the row count, and tp + fn is the sum of the tags |
| Evaluation.ConfusionCounts | bRandomForest.py:149-155 | with 0/1 tags each entry counts its (label, tag) pairs |
| Evaluation.MismatchesSplit | bRandomForest.py:128-138 | with 0/1 tags the mismatches are exactly the false positives plus the false negatives |
| Evaluation.PrecisionRecall | bRandomForest.py:159-170 | each rate is defined exactly when its denominator is non-zero, and then times the denominator it gives the numerator |
| Evaluation.RatesInUnit | bRandomForest.py:159-170 | with 0/1 tags every defined rate lies in [0, 1] |
| Evaluation.ConfusionMonotone | bRandomForest.py:172-191 | raising the threshold never increases tp or fp, and tp + fn stays fixed |
| Listings.NPrice | metrics.py:145 | the price per room is undefined exactly for zero bedrooms, and otherwise times the bedroom count gives the price |
| Metrics.Capitals | metrics.py:213 | the capital count never exceeds the post length |
| Metrics.CapRatioInUnit | metrics.py:213-215 | the capital fraction lies in [0, 1]; it is 0 exactly without capitals and 1 when every character is a capital |
| Metrics.MetricRowColumns | metrics.py:135-166 | the seven columns: each flag is 1 exactly when its field is not -1 (location judged by latitude), then the capital fraction in [0, 1], the word count, and a price difference that is 0 unless price, bedrooms and location are all present |
| Metrics.PriceBinIntervals | metrics.py:199-207 | bin 0 is below -0.34, bin 2 above 0.34, and both thresholds fall in bin 1 |
| Metrics.PriceBinMonotone | metrics.py:199-207 | a larger difference never falls in a lower bin |
| Metrics.NPriceBin | metrics.py:199-207 | the bin is 0, 1 or 2 |
| Metrics.CapFraction | metrics.py:210-216 | each post's capital fraction, in [0, 1]; any empty post raises |
| Metrics.NWords | metrics.py:218-222 | each post's word count, which is 0 exactly for an all-whitespace post |
| Metrics.FormatMetrics | metrics.py:135-166 | one seven-column row per listing, in order; it fails exactly when some post is empty |
| Metrics.Ensemble.constructor | metrics.py:230-231 | the ensemble keeps the given models |
| Metrics.Ensemble.EPredict | metrics.py:233-238 | the same mean-vote score as the forest; with no estimators there is none |
| Metrics.Ensemble.EClassify | metrics.py:240-245 | a row is labelled 1 exactly when its score reaches the threshold |
| FrontFormatting.SketchyLevelCases | frontFormating.py:8-17 | "Sketchy" (danger) exactly from 0.65 up, "Seems Legit" (success) exactly up to 0.35, "Hard to tell" (warning) in between |
| FrontFormatting.SketchyLevelMonotone | frontFormating.py:8-17 | a higher score never gets a less alarming label |
| FrontFormatting.HintLines | frontFormating.py:19-67 | split at `<br>`, the hint gives exactly five lines in order: price, address, phone, capitals, words |
| FrontFormatting.HintEndsWithWords | frontFormating.py:57-58 | the hint ends with `<br>`, the truncated word count and " words" |
| FrontFormatting.PriceLineCases | frontFormating.py:26-34 | the price line is green and "greater" exactly for a positive difference, red and "less" exactly for a negative one, and the cross exactly for zero |
| FrontFormatting.MarkLineCases | frontFormating.py:36-48 | an address or phone line shows the tick in green exactly when its flag is set, and otherwise the cross in red |
| FrontFormatting.CapsLineCases | frontFormating.py:50-55 | the capital-letter line is red exactly when the truncated percentage exceeds 7 |
| ReviewTool.KeptPositions | reviewTool.py:47 | the kept positions increase and are exactly the first occurrence of each pid |
| ReviewTool.DropDuplicatesSpec | reviewTool.py:47 | after dropping duplicates, pids are unique, every input pid survives, and each kept row is its pid's first row, in input order |
| ReviewTool.RemoveDuplicates | reviewTool.py:34-49 | the frame is the first-pid rows of all files in order, labelled 0 to n-1 |
| ReviewTool.RemoveNoPosts | reviewTool.py:51-59 | only rows with hasPost 1 remain, counted exactly, in their input order (at increasing input positions), labelled 0 to n-1 |
| ReviewTool.RemoveNoPostsKeepsPosts | reviewTool.py:56-57 | every row with a post survives |
| ReviewTool.NPriceAndCoordMat | reviewTool.py:153-173 | both outputs have one entry per listing with all four fields present |
| ReviewTool.NPriceAndCoordMatRows | reviewTool.py:162-172 | entry i of each output is the i-th fully described listing's price per room and (lon, lat); a listing is kept exactly when all four fields are present |
| RegexSubs.BlankTabsNewlines | scrapeTool.py:139 | no tab or newline remains; each becomes a space and every other character stays in place |
| RegexSubs.Collapse | scrapeTool.py:140 | no two class characters are adjacent, the only one kept is the space, and the result is empty exactly when the input is |
| RegexSubs.CollapseKeepsText | scrapeTool.py:140 | the characters outside the class are kept, in order |
| RegexSubs.Remove | scrapeTool.py:141-142 | the removed character is gone and every other character's presence is unchanged |
| Scraping.ScrapeTool.constructor | scrapeTool.py:23-35 | the page list starts with "" and has n // 100 + 1 entries (one for negative n), entry k is "index" + str(100k) + ".html", and the listing store starts empty |
| Scraping.PageNameRoundTrip | scrapeTool.py:33 | an index page name gives back its offset |
| Scraping.AddZerosRoundTrip | scrapeTool.py:86-95 | a value from 0 to 99 becomes two digits that read back as the value |
| Scraping.TimeStampShape | scrapeTool.py:75-84 | the stamp is `_YYYYMMDD-hhmm`: 14 characters with each field at its position, and each field reads back as its input |
| Scraping.CleanTextCharacters | scrapeTool.py:137-145 | the cleaned body holds no tab, newline or quote, and no ASCII `\s` character other than the space (non-ASCII spaces such as U+00A0 remain) |
| Scraping.CleanTextKeepsText | scrapeTool.py:137-145 | every other character is in the cleaned body exactly when it is in the first section's text, and with no section the body is the one space |
| Scraping.CleanTextDoubleSpace | scrapeTool.py:140-142 | "a ' b" cleans to "a  b": quotes go after the collapse, so two spaces meet |
| Scraping.ExtractPhoneNumber | scrapeTool.py:147-163 | the phone is -1 for a text without words or without a match; for a text with a word and a match it is exactly the matched number |
| Scraping.StoreListing | scrapeTool.py:165-185 | the six info fields, the phone and the link are copied; hasPost is 1 and post is the text exactly when the text has a word, otherwise post is empty and hasPost is 0 |
| Query.Collapsed | query.py:92-95 | after the space collapse no two spaces are adjacent |
| Query.CleanTextCharacters | query.py:88-98 | the cleaned body holds no tab, newline or quote |
| Query.CleanTextKeepsText | query.py:88-98 | every character other than the space, tab, newline and quotes is in the cleaned body exactly when it is in the joined text |
| Query.CleanTextDoubleSpace | query.py:95-97 | "a ' b" collapses to itself and cleans to "a  b", with two adjacent spaces |
| Query.CheckLoc | query.py:100-111 | the two coordinates when both attributes exist, otherwise (-1, -1) |
| Query.CheckNbr | query.py:113-121 | -1 exactly without a match; otherwise the match's single digit, from 0 to 9 |
| Query.CheckNbrRoundTrip | query.py:113-121 | every count from 0 to 9, written as ` / Nbr - `, reads back as itself |
| Query.CheckPrc | query.py:123-132 | -1 exactly without a match; otherwise a non-negative price |
| Query.CheckPrcRoundTrip | query.py:123-132 | a price written as `$` and its digits reads back as itself |

## Left out

- Network, HTML parsing and file I/O are not modelled. This covers:
  - `Query.scrape`, `ScrapeTool.scrape` and `dump_scraped_listing`;
  - `review_listing`, `separate_posts`, `patch_listings` and `get_scrapped_list`;
  - `get_listing_dict`;
  - `pickle_trained_model`.
  The helpers they call are modelled; the HTML attributes and text nodes those helpers read become parameters.
- The regular-expression searches are not modelled: `' / [0-9]br - '`, `'\$\d+'` and the phone pattern `\d{3}\W*\d{3}\W*\d{4}`. Their matches are inputs, and `NbrMatch`/`PriceMatch` state what the first two guarantee. `reprocess_phoneNumber_flag` uses only such a search, so it is left out.
- `_extract_listing_info` (scrapeTool.py:97-129) repeats the bodies of `_check_loc`, `_check_nbr` and `_check_prc`, so it is covered by `Query.CheckLoc`, `Query.CheckNbr` and `Query.CheckPrc`. `Metric.clean_text` and `check_*` (metrics.py:81-122) are copies of the same helpers.
- `_extract_phone_number` takes the first regex match as a parameter, so the model does not say how the match is found.
- Decision trees are opaque total functions; scikit-learn's fitting is not modelled. So is `get_median_nprice` and `get_perc_diff` (nearest-neighbour median). The price difference is a function-valued parameter.
- Forest.BalRandomForest.AllocateTestSample, Forest.BalRandomForest.PrepBalData, Forest.BalRandomForest.FitNext, Forest.BalRandomForest.FitStep, Forest.BalRandomForest.Train: these use the corrected `TestSlice` and `TrainSlice` (see "## Findings"). These agree with the source's `pool[-test_size:]` and `pool[:n - test_size]` when 1 <= test_size <= pool size (`Sampling.AsWrittenAgrees`). They differ for test_size 0 and for a legit pool shorter than test_size.
- Forest.BalRandomForest.Train: tree k's random feature choices (`max_features="auto"`) are the parameter `fits[k]`. How scikit-learn draws them is not modelled.
- `_add_tags` is a method that returns the two pools, and the constructor stores them. The source reassigns the pool fields in place, but nothing changes them after construction.
- Floating point is not modelled: reals are exact. Python's `int()` on a float is `Trunc`. The `test_size` floor is computed over exact reals, so a product that binary floating point rounds just below an integer can give a different size.
- numpy's nan and inf cannot be stored in a row, and a raised exception cannot be caught. Each becomes `None`; `NPrice` returns `None` for a zero bedroom count.
- A pandas data frame is its index labels plus its rows. Column-wise storage and dtype changes are not modelled.
- `float()` of a malformed coordinate attribute, which would raise, is not modelled: coordinates arrive as numbers.
- Forest.BalRandomForest.Validate: the tags are reals, and truthiness is modelled as `!= 0.0`.
- `clean_post_text` (reviewTool.py:89-96) is not modelled: it reads an undefined name and always raises.
- Scraping.TimeStampShape: the local clock is not modelled. The year, month, day, hour and minute are inputs, and the shape is proved for years 1000-9999.

## Findings

| source | as written | input that shows it | evidently intended | confidence | as-written member | corrected member |
|---|---|---|---|---|---|---|
| bRandomForest.py:52-68 | `pool[-test_size:]` with `test_size == 0` is the whole pool, and `pool[:len - 0]` is too, so every row is both a test row and a training row | train_size 0.8 and four scam rows: int(0.2 * 4) = 0 | an empty test slice and the whole pool for training | not executed | Sampling.AsWrittenZeroTestSize, Sampling.ZeroTestSizeExample | Sampling.SlicesPartition |
| bRandomForest.py:53-68 | with fewer legit rows than `test_size`, `legit[:n_legit - test_size]` has a negative stop and wraps around, so training legit rows are also test rows | 3 legit rows and test size 4: the test slice is all 3 rows and the training slice is `legit[:-1]`, 2 of the same rows | a test slice of all legit rows and an empty training remainder | not executed | Sampling.AsWrittenShortPool | Sampling.SlicesPartition |
