/**
 * The probability formulas of the three model classes, stated on the tables,
 * and the laws they obey on well-formed tables: normalisation over the
 * vocabulary, and what a held-out corpus contributes to perplexity.
 * Python's float division is exact real division here.
 */
module Estimates {
  import opened Counters
  import opened Sums
  import opened Training

  // ---------------------------------------------------------------- formulas

  /** Unsmoothed unigram estimate: the count of `t` over the sum of all counts. */
  ghost function Unigram(c: Counts, t: string): real
    requires Total(c.unigrams) > 0
  {
    Get(c.unigrams, t) as real / Total(c.unigrams) as real
  }

  /** Unsmoothed bigram estimate: the count of the pair over the unigram count of `t1`. */
  function Bigram(c: Counts, t1: string, t2: string): real
    requires Get(c.unigrams, t1) > 0
  {
    Get(Row(c.bigrams, t1), t2) as real / Get(c.unigrams, t1) as real
  }

  /** Add-k unigram denominator: the sum of all counts plus `k` per vocabulary token. */
  ghost function UnigramDenominator(c: Counts, k: real): real {
    AddKDenominator(Total(c.unigrams), |c.vocab|, k)
  }

  /** Add-k bigram denominator: the unigram count of `t1` plus `k` per vocabulary token. */
  function BigramDenominator(c: Counts, k: real, t1: string): real {
    AddKDenominator(Get(c.unigrams, t1), |c.vocab|, k)
  }

  /** Add-k unigram estimate: the count of `t` plus `k`, over the add-k unigram denominator. */
  ghost function SmoothedUnigram(c: Counts, k: real, t: string): real
    requires UnigramDenominator(c, k) != 0.0
  {
    AddK(c.unigrams, k, t) / UnigramDenominator(c, k)
  }

  /** Add-k bigram estimate: the count of the pair plus `k`, over the add-k bigram denominator of `t1`. */
  function SmoothedBigram(c: Counts, k: real, t1: string, t2: string): real
    requires BigramDenominator(c, k, t1) != 0.0
  {
    AddK(Row(c.bigrams, t1), k, t2) / BigramDenominator(c, k, t1)
  }

  /** The four estimates as functions of the predicted token, for summing over the vocabulary. */
  ghost function UnigramProbabilities(c: Counts): string -> real
    requires Total(c.unigrams) > 0
  {
    t => Unigram(c, t)
  }

  function BigramProbabilities(c: Counts, t1: string): string -> real
    requires Get(c.unigrams, t1) > 0
  {
    t2 => Bigram(c, t1, t2)
  }

  ghost function SmoothedUnigramProbabilities(c: Counts, k: real): string -> real
    requires UnigramDenominator(c, k) != 0.0
  {
    t => SmoothedUnigram(c, k, t)
  }

  function SmoothedBigramProbabilities(c: Counts, k: real, t1: string): string -> real
    requires BigramDenominator(c, k, t1) != 0.0
  {
    t2 => SmoothedBigram(c, k, t1, t2)
  }

  // ---------------------------------------------------------------- normalisation

  /** Unsmoothed unigram probabilities add up to 1 over the vocabulary. */
  lemma UnigramNormalised(c: Counts, n: nat)
    requires WellFormed(c, n)
    requires Total(c.unigrams) > 0
    ensures SumOver(c.vocab, UnigramProbabilities(c)) == 1.0
  {
    CountsNormalised(c.vocab, c.unigrams, UnigramProbabilities(c), Total(c.unigrams) as real, 0.0);
  }

  /** Add-k unigram probabilities add up to 1 over the vocabulary, whatever `k` is. */
  lemma SmoothedUnigramNormalised(c: Counts, n: nat, k: real)
    requires WellFormed(c, n)
    requires UnigramDenominator(c, k) != 0.0
    ensures SumOver(c.vocab, SmoothedUnigramProbabilities(c, k)) == 1.0
  {
    TimesDenominator(Total(c.unigrams) as real, |c.vocab|, k, UnigramDenominator(c, k), 0.0);
    AddKNormalised(c.vocab, c.unigrams, SmoothedUnigramProbabilities(c, k), k, UnigramDenominator(c, k), 0.0);
  }

  /**
   * Unsmoothed bigram probabilities from `t1` add up over the vocabulary to
   * 1 less the share of `t1`'s occurrences that end a line: 1 for every token
   * but `<END>`.
   */
  lemma BigramNormalised(c: Counts, n: nat, t1: string)
    requires WellFormed(c, n)
    requires Get(c.unigrams, t1) > 0
    ensures var d := Get(c.unigrams, t1) as real;
            SumOver(c.vocab, BigramProbabilities(c, t1)) == (d - (if t1 == End then n as real else 0.0)) / d
    ensures t1 != End ==> SumOver(c.vocab, BigramProbabilities(c, t1)) == 1.0
  {
    var row := Row(c.bigrams, t1);
    RowWithin(c, n, t1);
    CountsNormalised(c.vocab, row, BigramProbabilities(c, t1), Get(c.unigrams, t1) as real,
                     if t1 == End then n as real else 0.0);
  }

  /**
   * Add-k bigram probabilities from `t1` add up over the vocabulary to 1 for
   * every token but `<END>`, seen or not; for `<END>` they fall short by the
   * number of lines over the denominator.
   */
  lemma SmoothedBigramNormalised(c: Counts, n: nat, k: real, t1: string)
    requires WellFormed(c, n)
    requires BigramDenominator(c, k, t1) != 0.0
    ensures var d := BigramDenominator(c, k, t1);
            SumOver(c.vocab, SmoothedBigramProbabilities(c, k, t1)) == (d - (if t1 == End then n as real else 0.0)) / d
    ensures t1 != End ==> SumOver(c.vocab, SmoothedBigramProbabilities(c, k, t1)) == 1.0
  {
    RowWithin(c, n, t1);
    SmoothedRowSum(c, n, k, t1);
  }

  /** A bigram denominator less the row's shortfall `e` is the row total plus `k` once per vocabulary token. */
  lemma BigramDenominatorSplit(c: Counts, k: real, t1: string, e: real)
    requires Total(Row(c.bigrams, t1)) as real + e == Get(c.unigrams, t1) as real
    ensures BigramDenominator(c, k, t1) - e == Total(Row(c.bigrams, t1)) as real + Times(|c.vocab|, k)
  {
    TimesDenominator(Total(Row(c.bigrams, t1)) as real, |c.vocab|, k, BigramDenominator(c, k, t1), e);
  }

  /** The add-k row sum, given that the row ranges over the vocabulary and adds up to its unigram count less the lines for `<END>`. */
  lemma SmoothedRowSum(c: Counts, n: nat, k: real, t1: string)
    requires Row(c.bigrams, t1).Keys <= c.vocab
    requires Total(Row(c.bigrams, t1)) as real + (if t1 == End then n as real else 0.0) == Get(c.unigrams, t1) as real
    requires BigramDenominator(c, k, t1) != 0.0
    ensures var d := BigramDenominator(c, k, t1);
            SumOver(c.vocab, SmoothedBigramProbabilities(c, k, t1)) == (d - (if t1 == End then n as real else 0.0)) / d
    ensures t1 != End ==> SumOver(c.vocab, SmoothedBigramProbabilities(c, k, t1)) == 1.0
  {
    var e := if t1 == End then n as real else 0.0;
    BigramDenominatorSplit(c, k, t1, e);
    AddKNormalised(c.vocab, Row(c.bigrams, t1), SmoothedBigramProbabilities(c, k, t1), k, BigramDenominator(c, k, t1), e);
  }

  /** On well-formed tables a bigram row ranges over the vocabulary and adds up to its unigram count, less the lines for `<END>`. */
  lemma RowWithin(c: Counts, n: nat, t1: string)
    requires WellFormed(c, n)
    ensures Row(c.bigrams, t1).Keys <= c.vocab
    ensures Total(Row(c.bigrams, t1)) as real + (if t1 == End then n as real else 0.0) == Get(c.unigrams, t1) as real
  {
  }

  // ---------------------------------------------------------------- bounds

  /**
   * On well-formed tables the unsmoothed unigram probability lies in [0, 1]
   * and is positive exactly for the tokens of the vocabulary.
   */
  lemma UnigramBounds(c: Counts, n: nat, t: string)
    requires WellFormed(c, n)
    requires Total(c.unigrams) > 0
    ensures 0.0 <= Unigram(c, t) <= 1.0
    ensures Unigram(c, t) > 0.0 <==> t in c.vocab
  {
    CountWithinTotal(c.unigrams, t);
    QuotientBounds(Get(c.unigrams, t) as real, Total(c.unigrams) as real);
  }

  /**
   * On well-formed tables the unsmoothed bigram probability lies in [0, 1]
   * and is positive exactly for the pairs seen in training.
   */
  lemma BigramBounds(c: Counts, n: nat, t1: string, t2: string)
    requires WellFormed(c, n)
    requires Get(c.unigrams, t1) > 0
    ensures 0.0 <= Bigram(c, t1, t2) <= 1.0
    ensures Bigram(c, t1, t2) > 0.0 <==> t2 in Row(c.bigrams, t1)
  {
    var row := Row(c.bigrams, t1);
    RowWithin(c, n, t1);
    CountWithinTotal(row, t2);
    assert t2 in row ==> row[t2] > 0;
    QuotientBounds(Get(row, t2) as real, Get(c.unigrams, t1) as real);
  }

  /**
   * On well-formed tables the add-k unigram probability lies in [0, 1] when
   * k >= 0, and is positive for every token, seen or not, when k > 0.
   */
  lemma SmoothedUnigramBounds(c: Counts, n: nat, k: real, t: string)
    requires WellFormed(c, n)
    requires UnigramDenominator(c, k) != 0.0
    ensures 0.0 <= k ==> 0.0 <= SmoothedUnigram(c, k, t) <= 1.0
    ensures 0.0 < k ==> SmoothedUnigram(c, k, t) > 0.0
  {
    if 0.0 <= k {
      CountWithinTotal(c.unigrams, t);
      DenominatorCovers(c, n, k, Total(c.unigrams), UnigramDenominator(c, k));
      AddKBounds(AddK(c.unigrams, k, t), UnigramDenominator(c, k), Get(c.unigrams, t),
                 Total(c.unigrams), |c.vocab|, k);
    }
  }

  /**
   * On well-formed tables the add-k bigram probability lies in [0, 1] when
   * k >= 0, and is positive for every pair, seen or not, when k > 0.
   */
  lemma SmoothedBigramBounds(c: Counts, n: nat, k: real, t1: string, t2: string)
    requires WellFormed(c, n)
    requires BigramDenominator(c, k, t1) != 0.0
    ensures 0.0 <= k ==> 0.0 <= SmoothedBigram(c, k, t1, t2) <= 1.0
    ensures 0.0 < k ==> SmoothedBigram(c, k, t1, t2) > 0.0
  {
    if 0.0 <= k {
      var row := Row(c.bigrams, t1);
      RowCountWithin(c, n, t1, t2);
      CountWithinTotal(c.unigrams, t1);
      DenominatorCovers(c, n, k, Get(c.unigrams, t1), BigramDenominator(c, k, t1));
      AddKBounds(AddK(row, k, t2), BigramDenominator(c, k, t1), Get(row, t2),
                 Get(c.unigrams, t1), |c.vocab|, k);
    }
  }

  /**
   * An add-k denominator x + |vocab| * k that is not 0, for a count x within
   * the total and k >= 0, is x plus k added once per vocabulary token, and at
   * least once.
   */
  lemma DenominatorCovers(c: Counts, n: nat, k: real, x: nat, d: real)
    requires WellFormed(c, n)
    requires 0.0 <= k
    requires x <= Total(c.unigrams)
    requires d == AddKDenominator(x, |c.vocab|, k) && d != 0.0
    ensures d == x as real + Times(|c.vocab|, k)
    ensures k <= Times(|c.vocab|, k)
  {
    TimesDenominator(x as real, |c.vocab|, k, d, 0.0);
    VocabularyCovers(c, n, k, x, d);
  }

  /**
   * With k >= 0, the vocabulary contributes at least one k to any add-k
   * denominator x + k * |vocab| that is not 0.
   */
  lemma VocabularyCovers(c: Counts, n: nat, k: real, x: nat, d: real)
    requires WellFormed(c, n)
    requires 0.0 <= k
    requires x <= Total(c.unigrams)
    requires d == x as real + Times(|c.vocab|, k) && d != 0.0
    ensures k <= Times(|c.vocab|, k)
  {
    if x == 0 {
      assert Times(0, k) == 0.0;
      assert |c.vocab| != 0;
    } else {
      assert c.unigrams != map[];
      var t :| t in c.unigrams;
      assert t in c.vocab;
    }
    TimesAtLeast(|c.vocab|, k);
  }

  /** A non-negative `k` added to itself at least once is at least `k`. */
  lemma {:induction false} TimesAtLeast(m: nat, k: real)
    requires 1 <= m
    requires 0.0 <= k
    ensures k <= Times(m, k)
  {
    if m > 1 {
      TimesAtLeast(m - 1, k);
    }
  }

  /**
   * An add-k quotient (g + k) / (h + k added `size` times) with g <= h and
   * k at most its `size`-fold sum lies in [0, 1], and is positive when k is.
   */
  lemma AddKBounds(a: real, d: real, g: nat, h: nat, size: nat, k: real)
    requires a == g as real + k && d == h as real + Times(size, k)
    requires g <= h && 0.0 <= k <= Times(size, k)
    requires d != 0.0
    ensures 0.0 <= a / d <= 1.0
    ensures 0.0 < k ==> a / d > 0.0
  {
    QuotientBounds(a, d);
  }

  /** A quotient of a non-negative numerator by a larger denominator lies in [0, 1], and is 0 only for numerator 0. */
  lemma QuotientBounds(a: real, d: real)
    requires 0.0 <= a <= d
    requires d != 0.0
    ensures 0.0 <= a / d <= 1.0
    ensures a / d > 0.0 <==> a > 0.0
  {
  }

  // ---------------------------------------------------------------- k = 0

  /** With k = 0 the add-k unigram formula is the unsmoothed one. */
  lemma SmoothedUnigramZero(c: Counts, t: string)
    requires Total(c.unigrams) > 0
    ensures UnigramDenominator(c, 0.0) != 0.0
    ensures SmoothedUnigram(c, 0.0, t) == Unigram(c, t)
  {
    DivideEqual(AddK(c.unigrams, 0.0, t), Get(c.unigrams, t) as real, UnigramDenominator(c, 0.0), Total(c.unigrams) as real);
  }

  /** With k = 0 the add-k bigram formula is the unsmoothed one. */
  lemma SmoothedBigramZero(c: Counts, t1: string, t2: string)
    requires Get(c.unigrams, t1) > 0
    ensures BigramDenominator(c, 0.0, t1) != 0.0
    ensures SmoothedBigram(c, 0.0, t1, t2) == Bigram(c, t1, t2)
  {
    var row := Row(c.bigrams, t1);
    DivideEqual(AddK(row, 0.0, t2), Get(row, t2) as real, BigramDenominator(c, 0.0, t1), Get(c.unigrams, t1) as real);
  }

  lemma DivideEqual(a: real, b: real, d: real, e: real)
    requires a == b && d == e && e != 0.0
    ensures a / d == b / e
  {
  }

  /** On well-formed tables no bigram count exceeds the unigram count of its first token. */
  lemma RowCountWithin(c: Counts, n: nat, t1: string, t2: string)
    requires WellFormed(c, n)
    ensures Get(Row(c.bigrams, t1), t2) <= Get(c.unigrams, t1)
  {
    CountWithinTotal(Row(c.bigrams, t1), t2);
  }

  // ---------------------------------------------------------------- perplexity

  /** Every token of `tokens` that starts an adjacent pair has a non-zero add-k denominator. */
  predicate Scorable(c: Counts, k: real, tokens: seq<string>) {
    forall i :: 0 <= i < |tokens| - 1 ==> BigramDenominator(c, k, tokens[i]) != 0.0
  }

  /** The add-k bigram probability of each adjacent pair of `tokens`, in order. */
  function PairTerms(c: Counts, k: real, tokens: seq<string>): (terms: seq<real>)
    requires Scorable(c, k, tokens)
    ensures |terms| == if |tokens| < 2 then 0 else |tokens| - 1
    decreases |tokens|
  {
    if |tokens| < 2 then []
    else
      var n := |tokens|;
      PairTerms(c, k, tokens[..n - 1]) + [SmoothedBigram(c, k, tokens[n - 2], tokens[n - 1])]
  }

  /** The probabilities whose negative logarithms `perplexity` adds up, line after line. */
  function HeldOutTerms(c: Counts, k: real, lines: seq<string>): seq<real>
    requires forall j :: 0 <= j < |lines| ==> Scorable(c, k, Tokens(lines[j]))
    decreases |lines|
  {
    if lines == [] then []
    else
      var n := |lines|;
      HeldOutTerms(c, k, lines[..n - 1]) + PairTerms(c, k, Tokens(lines[n - 1]))
  }

  /** Term `i` of a line is the add-k probability of its `i`-th adjacent pair. */
  lemma {:induction false} PairTermsAt(c: Counts, k: real, tokens: seq<string>, i: nat)
    requires Scorable(c, k, tokens)
    requires i + 1 < |tokens|
    ensures |PairTerms(c, k, tokens)| == |tokens| - 1
    ensures PairTerms(c, k, tokens)[i] == SmoothedBigram(c, k, tokens[i], tokens[i + 1])
    decreases |tokens|
  {
    var n := |tokens|;
    var prefix := tokens[..n - 1];
    if i + 2 < n {
      PairTermsAt(c, k, prefix, i);
    } else if n > 2 {
      PairTermsAt(c, k, prefix, 0);
    }
  }

  /** A held-out corpus gives one term per token but the last of each line: w + 1 for a line of w words. */
  lemma {:induction false} HeldOutTermCount(c: Counts, k: real, lines: seq<string>)
    requires forall j :: 0 <= j < |lines| ==> Scorable(c, k, Tokens(lines[j]))
    ensures |HeldOutTerms(c, k, lines)| + |lines| == TokenCount(lines)
    decreases |lines|
  {
    if lines != [] {
      var n := |lines|;
      HeldOutTermCount(c, k, lines[..n - 1]);
      PairTermsAt(c, k, Tokens(lines[n - 1]), 0);
    }
  }

  /** `log_sum` after subtracting the logarithm of each term in turn, starting from 0. */
  function NegLogSum(terms: seq<real>, log: real -> real): real
    decreases |terms|
  {
    if terms == [] then 0.0
    else NegLogSum(terms[..|terms| - 1], log) - log(terms[|terms| - 1])
  }

  /** The terms of a prefix one token longer end with the probability of its last pair. */
  lemma PairTermsStep(c: Counts, k: real, tokens: seq<string>, j: nat)
    requires Scorable(c, k, tokens)
    requires 1 <= j < |tokens|
    ensures Scorable(c, k, tokens[..j]) && Scorable(c, k, tokens[..j + 1])
    ensures PairTerms(c, k, tokens[..j + 1]) == PairTerms(c, k, tokens[..j]) + [SmoothedBigram(c, k, tokens[j - 1], tokens[j])]
  {
    assert tokens[..j + 1][..j] == tokens[..j];
  }

  /** The terms of a corpus one line longer end with the terms of its last line. */
  lemma HeldOutTermsStep(c: Counts, k: real, lines: seq<string>, i: nat)
    requires forall j :: 0 <= j < |lines| ==> Scorable(c, k, Tokens(lines[j]))
    requires i < |lines|
    ensures HeldOutTerms(c, k, lines[..i + 1]) == HeldOutTerms(c, k, lines[..i]) + PairTerms(c, k, Tokens(lines[i]))
  {
    assert lines[..i + 1][..i] == lines[..i];
  }

  /**
   * Scoring one more pair of a line subtracts the logarithm of its add-k
   * probability from the running sum.
   */
  lemma NegLogSumPairStep(c: Counts, k: real, tokens: seq<string>, j: nat, earlier: seq<real>, log: real -> real)
    requires Scorable(c, k, tokens)
    requires 1 <= j < |tokens|
    ensures Scorable(c, k, tokens[..j]) && Scorable(c, k, tokens[..j + 1])
    ensures NegLogSum(earlier + PairTerms(c, k, tokens[..j + 1]), log)
         == NegLogSum(earlier + PairTerms(c, k, tokens[..j]), log) - log(SmoothedBigram(c, k, tokens[j - 1], tokens[j]))
  {
    var before := PairTerms(c, k, tokens[..j]);
    var x := SmoothedBigram(c, k, tokens[j - 1], tokens[j]);
    PairTermsStep(c, k, tokens, j);
    assert earlier + PairTerms(c, k, tokens[..j + 1]) == (earlier + before) + [x];
    NegLogSumStep(earlier + before, x, log);
  }

  /** One more term subtracts its logarithm. */
  lemma NegLogSumStep(terms: seq<real>, x: real, log: real -> real)
    ensures NegLogSum(terms + [x], log) == NegLogSum(terms, log) - log(x)
  {
    assert (terms + [x])[..|terms|] == terms;
  }

  /** With k > 0 every term of a held-out line is a probability in (0, 1], so its logarithm is defined. */
  lemma {:induction false} PairTermsBounds(c: Counts, n: nat, k: real, tokens: seq<string>)
    requires WellFormed(c, n)
    requires 0.0 < k
    requires Scorable(c, k, tokens)
    ensures forall i :: 0 <= i < |PairTerms(c, k, tokens)| ==> 0.0 < PairTerms(c, k, tokens)[i] <= 1.0
    decreases |tokens|
  {
    var m := |tokens|;
    if m >= 2 {
      var earlier := PairTerms(c, k, tokens[..m - 1]);
      PairTermsBounds(c, n, k, tokens[..m - 1]);
      SmoothedBigramBounds(c, n, k, tokens[m - 2], tokens[m - 1]);
      assert PairTerms(c, k, tokens) == earlier + [SmoothedBigram(c, k, tokens[m - 2], tokens[m - 1])];
    }
  }

  /** With k > 0 every term of a held-out corpus is a probability in (0, 1]. */
  lemma {:induction false} HeldOutTermsBounds(c: Counts, n: nat, k: real, lines: seq<string>)
    requires WellFormed(c, n)
    requires 0.0 < k
    requires forall j :: 0 <= j < |lines| ==> Scorable(c, k, Tokens(lines[j]))
    ensures forall i :: 0 <= i < |HeldOutTerms(c, k, lines)| ==> 0.0 < HeldOutTerms(c, k, lines)[i] <= 1.0
    decreases |lines|
  {
    if lines != [] {
      var m := |lines|;
      var earlier := HeldOutTerms(c, k, lines[..m - 1]);
      var last := PairTerms(c, k, Tokens(lines[m - 1]));
      HeldOutTermsBounds(c, n, k, lines[..m - 1]);
      PairTermsBounds(c, n, k, Tokens(lines[m - 1]));
      assert HeldOutTerms(c, k, lines) == earlier + last;
      forall i | 0 <= i < |earlier + last| ensures 0.0 < (earlier + last)[i] <= 1.0 {
        if i < |earlier| {
          assert (earlier + last)[i] == earlier[i];
        } else {
          assert (earlier + last)[i] == last[i - |earlier|];
        }
      }
    }
  }

  /** With k > 0 and a non-empty vocabulary every add-k bigram denominator is positive. */
  lemma BigramDenominatorPositive(c: Counts, k: real, t1: string)
    requires c.vocab != {}
    requires 0.0 < k
    ensures BigramDenominator(c, k, t1) > 0.0
  {
    TimesDenominator(Get(c.unigrams, t1) as real, |c.vocab|, k, BigramDenominator(c, k, t1), 0.0);
    TimesAtLeast(|c.vocab|, k);
  }

  /** With k > 0 and a non-empty vocabulary every held-out corpus can be scored: no division by zero. */
  lemma AllScorable(c: Counts, k: real, lines: seq<string>)
    requires c.vocab != {}
    requires 0.0 < k
    ensures forall j :: 0 <= j < |lines| ==> Scorable(c, k, Tokens(lines[j]))
  {
    forall j, i | 0 <= j < |lines| && 0 <= i < |Tokens(lines[j])| - 1
      ensures BigramDenominator(c, k, Tokens(lines[j])[i]) != 0.0
    {
      BigramDenominatorPositive(c, k, Tokens(lines[j])[i]);
    }
  }

  /** Subtracting logarithms that are never positive on (0, 1] from 0 leaves a sum that is not negative. */
  lemma {:induction false} NegLogSumNonNegative(terms: seq<real>, log: real -> real)
    requires forall x :: 0.0 < x <= 1.0 ==> log(x) <= 0.0
    requires forall i :: 0 <= i < |terms| ==> 0.0 < terms[i] <= 1.0
    ensures NegLogSum(terms, log) >= 0.0
    decreases |terms|
  {
    if terms != [] {
      var m := |terms|;
      NegLogSumNonNegative(terms[..m - 1], log);
      assert 0.0 < terms[m - 1] <= 1.0;
    }
  }

  /**
   * With k > 0, and a logarithm that is never positive on (0, 1], the
   * exponent `log_sum / N` of the perplexity of a non-empty held-out corpus
   * is defined and not negative, so with a monotone exponential the
   * perplexity is at least exp(0).
   */
  lemma PerplexityExponent(c: Counts, n: nat, k: real, lines: seq<string>, log: real -> real)
    requires WellFormed(c, n)
    requires 0.0 < k
    requires lines != []
    requires forall j :: 0 <= j < |lines| ==> Scorable(c, k, Tokens(lines[j]))
    requires forall x :: 0.0 < x <= 1.0 ==> log(x) <= 0.0
    ensures TokenCount(lines) > 0
    ensures NegLogSum(HeldOutTerms(c, k, lines), log) / TokenCount(lines) as real >= 0.0
  {
    HeldOutTermCount(c, k, lines);
    HeldOutTermsBounds(c, n, k, lines);
    NegLogSumNonNegative(HeldOutTerms(c, k, lines), log);
    QuotientNonNegative(NegLogSum(HeldOutTerms(c, k, lines), log), TokenCount(lines) as real);
  }

  lemma QuotientNonNegative(a: real, d: real)
    requires 0.0 <= a && 0.0 < d
    ensures a / d >= 0.0
  {
  }
}
