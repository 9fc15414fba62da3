/**
 * The model object itself: the three count tables as mutable fields, the
 * training loop, the four probability queries and the perplexity loop. Of
 * the three Python classes, the smoothing subclass adds `k` and overrides the
 * two formulas and the perplexity subclass adds `perplexity`, so here they
 * are one class holding `k`, with the unsmoothed and the add-k queries side
 * by side.
 */
module Model {
  import opened Counters
  import opened Sums
  import opened Training
  import opened Estimates

  class NgramModel {
    /** `self.unigram_counts`. */
    var unigramCounts: Counter
    /** `self.bigram_counts`. */
    var bigramCounts: Table
    /** `self.vocab`. */
    var vocab: set<string>
    /** `self.k`, the add-k constant; fixed at construction. */
    const k: real
    /** Every line trained on so far, in order. */
    ghost var history: seq<string>

    /** The tables as a value. */
    function Snapshot(): Counts
      reads this
    {
      Counts(unigramCounts, bigramCounts, vocab)
    }

    /** The tables are those of a fresh model trained on `history`. */
    ghost predicate Valid()
      reads this
    {
      Snapshot() == Trained(history)
    }

    /** `NgramModelWithSmoothing(k)`: empty tables and vocabulary. */
    constructor(k: real)
      ensures Valid()
      ensures unigramCounts == map[] && bigramCounts == map[] && vocab == {}
      ensures history == []
      ensures this.k == k
    {
      unigramCounts := map[];
      bigramCounts := map[];
      vocab := {};
      this.k := k;
      history := [];
    }

    /**
     * `train`: count every line in turn. The tables grow from where they
     * were, so training on `a` and then on `b` is training on `a + b`.
     */
    method Train(lines: seq<string>)
      requires Valid()
      modifies this
      ensures Valid()
      ensures history == old(history) + lines
      ensures Snapshot() == Fold(old(Snapshot()), lines)
    {
      for i := 0 to |lines|
        invariant Valid()
        invariant history == old(history) + lines[..i]
      {
        CountLine(lines[i]);
        assert lines[..i + 1] == lines[..i] + [lines[i]];
      }
      assert lines[..|lines|] == lines;
      FoldAppend(Empty, old(history), lines);
    }

    /**
     * The body of the loop in `train`: wrap the line's words in `<START>` and
     * `<END>`, add the tokens to the vocabulary and the unigram counter, then
     * count each adjacent pair.
     */
    method CountLine(line: string)
      requires Valid()
      modifies this
      ensures Valid()
      ensures history == old(history) + [line]
      ensures Snapshot() == Observe(old(Snapshot()), line)
    {
      var tokens := Tokens(line);
      vocab := vocab + set t | t in tokens;
      unigramCounts := AddAll(unigramCounts, tokens);
      var pairs := bigramCounts;
      for j := 1 to |tokens|
        invariant bigramCounts == AddPairs(pairs, tokens[..j])
        invariant vocab == old(vocab) + set t | t in tokens
        invariant unigramCounts == AddAll(old(unigramCounts), tokens)
        invariant history == old(history)
      {
        AddPairsStep(pairs, tokens, j);
        bigramCounts := BumpPair(bigramCounts, tokens[j - 1], tokens[j]);
      }
      assert tokens[..|tokens|] == tokens;
      FoldStep(Empty, history + [line], |history|);
      assert (history + [line])[..|history|] == history;
      history := history + [line];
    }

    /** The sum of all unigram counts, added up one key at a time. */
    method TotalCount() returns (total: nat)
      ensures total == Total(unigramCounts)
    {
      total := 0;
      var remaining := unigramCounts.Keys;
      while remaining != {}
        invariant remaining <= unigramCounts.Keys
        invariant total + SumOf(unigramCounts, remaining) == Total(unigramCounts)
        decreases |remaining|
      {
        var t :| t in remaining;
        SumOfRemove(unigramCounts, remaining, t);
        total := total + unigramCounts[t];
        remaining := remaining - {t};
      }
    }

    /**
     * `NgramModel.unigram_probability`: the token's share of all counted
     * tokens; 0 exactly for tokens never seen. Division by zero on an
     * untrained model.
     */
    method UnigramProbability(token: string) returns (p: real)
      requires Valid()
      requires Total(unigramCounts) > 0
      ensures p == Unigram(Snapshot(), token)
      ensures 0.0 <= p <= 1.0
      ensures p > 0.0 <==> token in vocab
    {
      var total := TotalCount();
      p := Get(unigramCounts, token) as real / total as real;
      TrainedWellFormed(history);
      UnigramBounds(Snapshot(), |history|, token);
    }

    /**
     * `NgramModel.bigram_probability`: the share of `token1`'s occurrences
     * followed by `token2`; 0 exactly for pairs never seen. Division by zero
     * when `token1` was never seen.
     */
    function BigramProbability(token1: string, token2: string): (p: real)
      reads this
      requires Valid()
      requires Get(unigramCounts, token1) > 0
      ensures p == Bigram(Snapshot(), token1, token2)
      ensures 0.0 <= p <= 1.0
      ensures p > 0.0 <==> token2 in Row(bigramCounts, token1)
    {
      TrainedWellFormed(history);
      BigramBounds(Snapshot(), |history|, token1, token2);
      Bigram(Snapshot(), token1, token2)
    }

    /**
     * `NgramModelWithSmoothing.unigram_probability`: add-k smoothing over the
     * vocabulary. With k > 0 every token, seen or not, gets a positive share.
     */
    method SmoothedUnigramProbability(token: string) returns (p: real)
      requires Valid()
      requires UnigramDenominator(Snapshot(), k) != 0.0
      ensures p == SmoothedUnigram(Snapshot(), k, token)
      ensures 0.0 <= k ==> 0.0 <= p <= 1.0
      ensures 0.0 < k ==> p > 0.0
    {
      var total := TotalCount();
      p := AddK(unigramCounts, k, token) / AddKDenominator(total, |vocab|, k);
      TrainedWellFormed(history);
      SmoothedUnigramBounds(Snapshot(), |history|, k, token);
    }

    /**
     * `NgramModelWithSmoothing.bigram_probability`: add-k smoothing of the
     * row of `token1`. With k > 0 every pair, seen or not, gets a positive
     * share.
     */
    function SmoothedBigramProbability(token1: string, token2: string): (p: real)
      reads this
      requires Valid()
      requires BigramDenominator(Snapshot(), k, token1) != 0.0
      ensures p == SmoothedBigram(Snapshot(), k, token1, token2)
      ensures 0.0 <= k ==> 0.0 <= p <= 1.0
      ensures 0.0 < k ==> p > 0.0
    {
      TrainedWellFormed(history);
      SmoothedBigramBounds(Snapshot(), |history|, k, token1, token2);
      SmoothedBigram(Snapshot(), k, token1, token2)
    }

    /**
     * The inner loop of `perplexity`: subtract from `logSum` the logarithm of
     * the add-k probability of each adjacent pair of one line's tokens.
     */
    method ScoreLine(tokens: seq<string>, logSum0: real, ghost earlier: seq<real>, log: real -> real) returns (logSum: real)
      requires Valid()
      requires Scorable(Snapshot(), k, tokens)
      requires |tokens| >= 1
      requires logSum0 == NegLogSum(earlier, log)
      ensures logSum == NegLogSum(earlier + PairTerms(Snapshot(), k, tokens), log)
    {
      ghost var c := Snapshot();
      logSum := logSum0;
      assert PairTerms(c, k, tokens[..1]) == [];
      assert earlier + PairTerms(c, k, tokens[..1]) == earlier;
      for j := 1 to |tokens|
        invariant logSum == NegLogSum(earlier + PairTerms(c, k, tokens[..j]), log)
      {
        var prob := SmoothedBigramProbability(tokens[j - 1], tokens[j]);
        NegLogSumPairStep(c, k, tokens, j, earlier, log);
        logSum := logSum - log(prob);
      }
      assert tokens[..|tokens|] == tokens;
    }

    /**
     * `NgramModelWithPerplexity.perplexity`: `N` counts every token of every
     * held-out line, `log_sum` loses the logarithm of the add-k probability of
     * every adjacent pair, and the result is exp(log_sum / N). The logarithm
     * and the exponential are parameters. No count and no vocabulary entry
     * changes.
     */
    method Perplexity(heldOut: seq<string>, log: real -> real, exp: real -> real) returns (perplexity: real)
      requires Valid()
      requires heldOut != []
      requires forall j :: 0 <= j < |heldOut| ==> Scorable(Snapshot(), k, Tokens(heldOut[j]))
      ensures TokenCount(heldOut) > 0
      ensures perplexity == exp(NegLogSum(HeldOutTerms(Snapshot(), k, heldOut), log) / TokenCount(heldOut) as real)
    {
      ghost var c := Snapshot();
      var logSum := 0.0;
      var n := 0;
      for i := 0 to |heldOut|
        invariant n == TokenCount(heldOut[..i])
        invariant logSum == NegLogSum(HeldOutTerms(c, k, heldOut[..i]), log)
      {
        var tokens := Tokens(heldOut[i]);
        n := n + |tokens|;
        logSum := ScoreLine(tokens, logSum, HeldOutTerms(c, k, heldOut[..i]), log);
        TokenCountStep(heldOut, i);
        HeldOutTermsStep(c, k, heldOut, i);
      }
      assert heldOut[..|heldOut|] == heldOut;
      perplexity := exp(logSum / n as real);
    }
  }
}
