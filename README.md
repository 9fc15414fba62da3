# Bigram language model with add-k smoothing and perplexity

This project models `main.py`, a bigram language model over whitespace-separated words. It has three parts:

- **Training.** Each training line becomes `<START>`, then its words, then `<END>`. Three tables are updated in place:
  - the vocabulary (a set);
  - a unigram counter;
  - a table of bigram counters, keyed by the preceding token.
- **Queries.** Unsmoothed unigram and bigram probabilities are counts over counts. Add-k smoothing adds `k` to every count and `k` once per vocabulary token to every denominator.
- **Perplexity.** It scores a held-out corpus as `exp(log_sum / N)`:
  - `N` counts every token of every line, boundaries included;
  - `log_sum` loses the natural logarithm of the smoothed bigram probability of every adjacent pair.

The model is built in layers:

- **`Text`**: Python's `str.split()`. Whitespace is the `str.isspace()` set, and splitting undoes joining with single spaces.
- **`Counters`**:
  - `Counter` and `defaultdict(Counter)` as maps in which a missing key reads as 0 or as an empty row;
  - the increments that training performs;
  - the totals the formulas divide by.
- **`Training`**: what training computes, stated on values.
  - `Observe` is one line and `Fold` is a whole corpus.
  - `WellFormed` is the invariant of the tables:
    - the vocabulary is exactly the set of counted tokens;
    - bigram keys lie in the vocabulary;
    - each token's bigram row adds up to its unigram count, except that `<END>` falls short by one per line.
- **`Sums`**: sums of real-valued functions over a finite set, used to state normalisation.
- **`Estimates`**: the four probability formulas and the laws they obey:
  - normalisation over the vocabulary;
  - bounds;
  - agreement of add-k with k = 0 and the unsmoothed estimates;
  - the sequence of probabilities that perplexity takes logarithms of.
- **`Model`**: the model object, as a class.
  - Its fields are the three tables and the constant `k`. A ghost history of trained lines ties the fields to `Trained(history)`.
  - `Train` and `CountLine` update the fields in loops.
  - `Perplexity` and `ScoreLine` compute `log_sum` and `N` in loops.
  - The probability queries compute the formulas.

Bigram rows add up to 1 over the vocabulary for every `t1` but `<END>`. Every line ends with an `<END>` that starts no pair, so the row of `<END>` falls short of its unigram count by the number of lines trained on. Its unsmoothed probabilities add up to `(d - n) / d` and its add-k probabilities to `(d' - n) / d'`, where:

- `d` is the unigram count of `<END>`;
- `d'` is the add-k denominator of `<END>`;
- `n` is the number of lines.

The unsmoothed sum is 0 unless the word `<END>` also occurs inside a line, where it does start a pair. Once one line has been trained, the add-k sum differs from 1: for k >= 0 it is short of 1, and when `d'` is negative it exceeds 1. `BigramNormalised` and `SmoothedBigramNormalised` state both cases.

## Model

| member | source | states |
|---|---|---|
| Model.NgramModel.constructor | main.py:28-30 | A new model has an empty unigram counter, an empty bigram table and an empty vocabulary, keeps the given `k`, and is the model trained on no lines. |
| Model.NgramModel.Train | main.py:10-17 | Training counts each line in turn, on top of what was counted before. The new tables are `Fold` of the old ones over the lines. The model stays the one trained on its whole history, old lines then new. |
| Model.NgramModel.CountLine | main.py:13-17 | One line's tokens are `<START>`, its words, `<END>`. The vocabulary gains the tokens, each token's unigram count grows by its occurrences, and each adjacent pair is counted once in the bigram table, in order (`Observe`). The line joins the history and the model stays the one trained on it. |
| Model.NgramModel.TotalCount | main.py:20 | The loop returns the sum of all unigram counts. |
| Model.NgramModel.UnigramProbability | main.py:19-21 | The result is the token's count over the sum of all counts. It lies in [0, 1] and is positive exactly when the token is in the vocabulary. |
| Model.NgramModel.BigramProbability | main.py:23-24 | The result is the pair's count over the unigram count of `token1`. It lies in [0, 1] and is positive exactly when the pair was seen. |
| Model.NgramModel.SmoothedUnigramProbability | main.py:32-34 | The result is (count + k) over (total + `len(vocab)` * k). It lies in [0, 1] when k >= 0 and is positive for every token, seen or not, when k > 0. |
| Model.NgramModel.SmoothedBigramProbability | main.py:36-37 | The result is (pair count + k) over (count of `token1` + `len(vocab)` * k). It lies in [0, 1] when k >= 0 and is positive for every pair when k > 0. |
| Model.NgramModel.ScoreLine | main.py:48-50 | The inner loop subtracts from the running `log_sum` the logarithm of the smoothed probability of each adjacent pair of the line, in order. |
| Model.NgramModel.Perplexity | main.py:41-51 | `N` is the number of tokens of the held-out lines, boundaries included, and is positive. The result is exp(`log_sum` / N), where `log_sum` subtracts the logarithm of every pair's smoothed probability, line after line. |
| Training.Tokens | main.py:13 | A line has as many tokens as words plus two: `<START>` first, `<END>` last, and the words of `split()` in between. |
| Text.Split | main.py:13 | Every word that whitespace splitting yields is non-empty and free of whitespace. |
| Text.SplitJoin | main.py:13 | Splitting words joined by single spaces gives back the words. |
| Text.SplitWord | main.py:13 | A single word (non-empty, no whitespace) splits into just itself. |
| Text.SplitSpaces | main.py:13 | A string of whitespace only, the empty string included, splits into no words, as after `strip()`. |
| Text.SplitAtSpace | main.py:13 | Any `isspace()` character, a tab or a newline as much as a blank, separates: the split of `s1 + [c] + s2` is the split of `s1` followed by that of `s2`. So leading, trailing and repeated whitespace yield no empty words. With `SplitWord` and `SplitSpaces` this fixes `Split` on every string. |
| Text.WordLengthPrefix | main.py:13 | Text appended after a word that has already ended does not lengthen it. |
| Counters.Get | main.py:21 | Definition: reading a `Counter`; a missing key reads as 0 and is not inserted. `CountWithinTotal` bounds it by the total. |
| Counters.Row | main.py:24 | Definition: reading a row of the `defaultdict(Counter)`; a missing row reads as an empty counter. The insertion of that row on read is not modelled (see "Left out"). |
| Counters.AddAll | main.py:15 | Definition: `Counter.update` with a token list, one increment per token, left to right. `AddAllCounts`, `AddAllKeys` and `AddAllTotal` state its effect. |
| Counters.AddPairs | main.py:16-17 | Definition: the pair loop, one `BumpPair` per adjacent pair, left to right. `AddPairsRows`, `AddPairsTotal` and `AddPairsWithin` state its effect. |
| Counters.BumpPair | main.py:17 | Definition: one increment of `bigram_counts[t1][t2]`. `BumpPairRow` states its effect. |
| Counters.BumpPairRow | main.py:17 | One pair increment adds one to the total of row `t1` and leaves every other row's total unchanged. |
| Counters.Bump | main.py:17 | One increment adds the key and raises its count by one; every other count is unchanged. |
| Counters.AddAllCounts | main.py:15 | After a counter update, each count has grown by the number of occurrences of the token in the list. |
| Counters.AddAllKeys | main.py:14-15 | A counter update adds exactly the listed tokens as keys. |
| Counters.AddAllTotal | main.py:15 | A counter update adds the length of the token list to the total. |
| Counters.AddPairsRows | main.py:16-17 | Counting the adjacent pairs adds to row `t` one count per position of `t` that starts a pair. |
| Counters.AddPairsTotal | main.py:16-17 | A line of n tokens adds n - 1 pair counts to the table. |
| Counters.AddPairsWithin | main.py:16-17 | Counting pairs of vocabulary tokens keeps every key of the table and its rows in the vocabulary, with positive counts. |
| Training.Observe | main.py:13-17 | Definition: one iteration of the training loop on the tables as values. `ObserveTotals` and `ObserveWellFormed` state its effect, and `CountLine` is proved to compute it. |
| Training.Fold | main.py:12-17 | Definition: the training loop over lines as a fold of `Observe`. `FoldAppend` and `TrainedWellFormed` state its properties, and `Train` is proved to compute it. |
| Training.TokenCount | main.py:47 | Definition: `N`, the sum of the token counts of the lines. `TrainedTotals` and `HeldOutTermCount` relate it to the counts and to the number of perplexity terms. |
| Training.FoldStep | main.py:12-17 | Training on a prefix one line longer counts its last line on top of the shorter prefix. |
| Training.FoldAppend | main.py:10-17 | Training never resets: training on `a` and then on `b` gives the tables of training on `a + b`. |
| Training.ObserveWellFormed | main.py:13-17 | Counting one more line keeps the tables well formed for one more line. |
| Training.TrainedWellFormed | main.py:10-17 | A fresh model trained on any lines has well-formed tables: vocabulary = counted tokens, bigram keys in the vocabulary, and rows adding up to unigram counts except `<END>`, short by the number of lines. |
| Training.ObserveTotals | main.py:13-17 | A line of w words adds w + 2 to the unigram total and w + 1 to the bigram total. |
| Training.TrainedTotals | main.py:10-17 | After training, the unigram total is the number of tokens. The bigram total is that less one per line. |
| Training.TrainedVocabulary | main.py:13-14 | After at least one line, `<START>` and `<END>` are in the vocabulary. |
| Training.TokenCountStep | main.py:46-47 | `N` grows by the token count of each line. |
| Estimates.Unigram | main.py:21 | Definition of the unsmoothed unigram formula. Its properties are in `UnigramBounds` and `UnigramNormalised`. |
| Estimates.Bigram | main.py:24 | Definition of the unsmoothed bigram formula. Its properties are in `BigramBounds` and `BigramNormalised`. |
| Estimates.SmoothedUnigram | main.py:34 | Definition of the add-k unigram formula. Its properties are in `SmoothedUnigramBounds`, `SmoothedUnigramNormalised` and `SmoothedUnigramZero`. |
| Estimates.SmoothedBigram | main.py:37 | Definition of the add-k bigram formula. Its properties are in `SmoothedBigramBounds`, `SmoothedBigramNormalised` and `SmoothedBigramZero`. |
| Estimates.PairTerms | main.py:48-49 | A line of n >= 2 tokens has n - 1 terms, one per adjacent pair (none for fewer tokens). `PairTermsAt` gives term i. |
| Estimates.HeldOutTerms | main.py:44-49 | Definition: the terms of every line, line after line. `HeldOutTermCount` and `HeldOutTermsBounds` state its length and bounds. |
| Estimates.NegLogSum | main.py:42-50 | Definition: `log_sum`, starting at 0 and losing the logarithm of each term in turn. `NegLogSumStep` and `NegLogSumNonNegative` state its properties. |
| Estimates.UnigramNormalised | main.py:19-21 | On a trained model, unsmoothed unigram probabilities add up to 1 over the vocabulary. |
| Estimates.SmoothedUnigramNormalised | main.py:32-34 | Add-k unigram probabilities add up to 1 over the vocabulary, for any k with a non-zero denominator. |
| Estimates.BigramNormalised | main.py:23-24 | Unsmoothed bigram probabilities from `t1` add up over the vocabulary to (d - e) / d, where d is the count of `t1`, e is the number of lines for `<END>` and 0 otherwise. So the sum is 1 for every token but `<END>`. |
| Estimates.SmoothedBigramNormalised | main.py:36-37 | Add-k bigram probabilities from `t1` add up over the vocabulary to 1 for every token but `<END>`, seen or not. For `<END>` the sum falls short by the number of lines over the denominator. |
| Estimates.RowWithin | main.py:16-17 | On a trained model, a bigram row ranges over the vocabulary and adds up to its token's unigram count, less the number of lines for `<END>`. |
| Estimates.UnigramBounds | main.py:19-21 | An unsmoothed unigram probability lies in [0, 1] and is positive exactly for vocabulary tokens. |
| Estimates.BigramBounds | main.py:23-24 | An unsmoothed bigram probability lies in [0, 1] and is positive exactly for seen pairs. |
| Estimates.SmoothedUnigramBounds | main.py:32-34 | An add-k unigram probability lies in [0, 1] when k >= 0 and is positive when k > 0. |
| Estimates.SmoothedBigramBounds | main.py:36-37 | An add-k bigram probability lies in [0, 1] when k >= 0 and is positive when k > 0. |
| Estimates.SmoothedUnigramZero | main.py:32-34 | With k = 0 the smoothed unigram formula equals the unsmoothed one, and is defined whenever that is. |
| Estimates.SmoothedBigramZero | main.py:36-37 | With k = 0 the smoothed bigram formula equals the unsmoothed one, and is defined whenever that is. |
| Estimates.BigramDenominatorPositive | main.py:37 | With k > 0 and a non-empty vocabulary, the smoothed bigram denominator is positive, so it is never 0. |
| Estimates.AllScorable | main.py:48-49 | With k > 0 and a non-empty vocabulary, every adjacent pair of any held-out corpus can be scored without dividing by zero. |
| Estimates.PairTermsAt | main.py:48-49 | A line of n tokens gives n - 1 terms. Term i is the smoothed probability of the pair (token i, token i + 1). |
| Estimates.HeldOutTermCount | main.py:44-48 | A held-out corpus gives one term per token but the last of each line: the number of terms plus the number of lines is `N`. |
| Estimates.PairTermsStep | main.py:48-49 | The terms of a line prefix one token longer end with the probability of its last pair. |
| Estimates.HeldOutTermsStep | main.py:45-50 | The terms of a corpus one line longer end with the terms of that line. |
| Estimates.NegLogSumPairStep | main.py:49-50 | Scoring one more pair subtracts the logarithm of its smoothed probability from `log_sum`. |
| Estimates.NegLogSumStep | main.py:50 | One more term subtracts its logarithm from the running sum. |
| Estimates.PairTermsBounds | main.py:48-50 | With k > 0, every term of a line is a probability in (0, 1], so its logarithm is defined. |
| Estimates.HeldOutTermsBounds | main.py:44-50 | With k > 0, every term of a held-out corpus is a probability in (0, 1]. |
| Estimates.NegLogSumNonNegative | main.py:50 | Subtracting logarithms that are never positive on (0, 1] leaves `log_sum` >= 0. |
| Estimates.PerplexityExponent | main.py:50-51 | With k > 0 and a non-empty held-out corpus, `N` > 0 and `log_sum` / N >= 0, so the perplexity is at least exp(0). |

## Left out

- Files are not modelled. `train` and `perplexity` take the file's lines as a sequence of strings instead of a path. Opening and reading the file is I/O.
- `math.log` and `math.exp` are parameters of `Perplexity`. Real logarithms and exponentials are not definable here, so nothing is assumed of them beyond what a lemma requires explicitly, such as `log` <= 0 on (0, 1].
- Model.NgramModel.Perplexity: `math.log` raises an error on a probability <= 0, and that error is not modelled. The `log` parameter is applied to every probability. With k < 0 a term can be negative. `PairTermsBounds` shows that with k > 0 every term lies in (0, 1].
- Floating-point arithmetic is not modelled. Division, the counts and `k` are exact reals, so rounding is not captured.
- Division by zero is a precondition, not a modelled error. Each operation requires the condition under which Python does not raise `ZeroDivisionError`:
  - unigram: a positive total;
  - bigram: a positive count of `token1`;
  - add-k: a non-zero denominator;
  - perplexity: a non-empty held-out corpus, and a non-zero denominator for every pair.

  `AllScorable` and `TrainedVocabulary` show that with k > 0 any model trained on at least one line meets the perplexity precondition.
- Model.NgramModel.BigramProbability: reading a missing row of the `defaultdict` in Python inserts an empty counter for `token1`. The model reads without inserting. An empty row adds nothing to any count, total or probability; only the set of table keys differs.
- Model.NgramModel.SmoothedBigramProbability: the same `defaultdict` insertion on read is not modelled.
- The three Python classes are one class. `NgramModelWithSmoothing` adds `k` and overrides the two formulas, and `NgramModelWithPerplexity` adds `perplexity`. So the class holds `k` and offers the unsmoothed and add-k queries side by side. On a Python `NgramModelWithPerplexity` object only the add-k queries are reachable.
- The default `k=1` of the constructor is not modelled; `k` is passed explicitly.
- `line.strip()` is not modelled separately. `split()` with no argument already ignores leading and trailing whitespace, and the whitespace set of both is the same.
- The usage block (main.py:54-59) and its `print` calls are the program's driver, not its model.
- `Estimates.Unigram` and `Estimates.SmoothedUnigram` are ghost functions because the sum over a counter's values is defined by choice. `UnigramProbability` and `SmoothedUnigramProbability` compute the sum with a loop and are proved equal to them.
