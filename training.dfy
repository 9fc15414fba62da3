/**
 * What `NgramModel.train` computes, stated on values: each line becomes
 * `<START>` + its words + `<END>`; the vocabulary gains the tokens, the
 * unigram counter counts every token, and the bigram table counts every
 * adjacent pair. Training on several lines is the fold of the one-line step.
 */
module Training {
  import opened Text
  import opened Counters

  const Start: string := "<START>"
  const End: string := "<END>"

  /** The tokens of a line: `<START>`, the line's whitespace-separated words, `<END>`. */
  function Tokens(line: string): (tokens: seq<string>)
    ensures |tokens| == |Split(line)| + 2
    ensures tokens[0] == Start && tokens[|tokens| - 1] == End
    ensures tokens[1..|tokens| - 1] == Split(line)
  {
    [Start] + Split(line) + [End]
  }

  /** The three tables of a model: unigram counts, bigram counts and the vocabulary. */
  datatype Counts = Counts(unigrams: Counter, bigrams: Table, vocab: set<string>)

  /** The tables of a freshly constructed model. */
  const Empty: Counts := Counts(map[], map[], {})

  /** One iteration of the loop over lines in `train`. */
  function Observe(c: Counts, line: string): Counts {
    var tokens := Tokens(line);
    Counts(AddAll(c.unigrams, tokens), AddPairs(c.bigrams, tokens), c.vocab + set t | t in tokens)
  }

  /** The loop over lines in `train`, starting from the tables `c`. */
  function Fold(c: Counts, lines: seq<string>): Counts
    decreases |lines|
  {
    if lines == [] then c
    else Observe(Fold(c, lines[..|lines| - 1]), lines[|lines| - 1])
  }

  /** Training on a prefix one line longer observes its last line. */
  lemma FoldStep(c: Counts, lines: seq<string>, i: nat)
    requires i < |lines|
    ensures Fold(c, lines[..i + 1]) == Observe(Fold(c, lines[..i]), lines[i])
  {
    assert lines[..i + 1][..i] == lines[..i];
  }

  /** The tables of a fresh model trained on `lines`. */
  function Trained(lines: seq<string>): Counts {
    Fold(Empty, lines)
  }

  /** Number of tokens in the lines, boundaries included. */
  function TokenCount(lines: seq<string>): nat
    decreases |lines|
  {
    if lines == [] then 0
    else TokenCount(lines[..|lines| - 1]) + |Tokens(lines[|lines| - 1])|
  }

  /** A corpus one line longer has that line's tokens more. */
  lemma TokenCountStep(lines: seq<string>, i: nat)
    requires i < |lines|
    ensures TokenCount(lines[..i + 1]) == TokenCount(lines[..i]) + |Tokens(lines[i])|
  {
    assert lines[..i + 1][..i] == lines[..i];
  }

  /**
   * The invariant of the tables after `lines` lines of training: the vocabulary
   * is exactly the set of tokens with a positive unigram count; every bigram key
   * is in the vocabulary; and each token's bigram row adds up to its unigram
   * count, except that `<END>` closes every line without starting a pair.
   */
  ghost predicate WellFormed(c: Counts, lines: nat) {
    && c.vocab == c.unigrams.Keys
    && (forall t :: t in c.unigrams ==> c.unigrams[t] > 0)
    && RowsWithin(c.bigrams, c.vocab)
    && (forall t {:trigger Row(c.bigrams, t)} :: Total(Row(c.bigrams, t)) + (if t == End then lines else 0) == Get(c.unigrams, t))
  }

  /** `train` never resets: training on `a` and then on `b` is training on `a + b`. */
  lemma {:induction false} FoldAppend(c: Counts, a: seq<string>, b: seq<string>)
    ensures Fold(Fold(c, a), b) == Fold(c, a + b)
    decreases |b|
  {
    if b == [] {
      assert a + b == a;
    } else {
      var n := |b|;
      FoldAppend(c, a, b[..n - 1]);
      assert (a + b)[..|a + b| - 1] == a + b[..n - 1];
    }
  }

  /** Training one more line keeps the tables well formed, counting one more line. */
  lemma ObserveWellFormed(c: Counts, n: nat, line: string)
    requires WellFormed(c, n)
    ensures WellFormed(Observe(c, line), n + 1)
  {
    var tokens := Tokens(line);
    var c' := Observe(c, line);
    ObserveUnigrams(c, line);
    AddPairsWithin(c.bigrams, tokens, c'.vocab);
    ObserveRowTotals(c, n, line);
  }

  /** The vocabulary stays the set of keys of the unigram counter, all of them positive. */
  lemma ObserveUnigrams(c: Counts, line: string)
    requires c.vocab == c.unigrams.Keys
    requires forall t :: t in c.unigrams ==> c.unigrams[t] > 0
    ensures Observe(c, line).vocab == Observe(c, line).unigrams.Keys
    ensures forall t :: t in Observe(c, line).unigrams ==> Observe(c, line).unigrams[t] > 0
  {
    var tokens := Tokens(line);
    var u := Observe(c, line).unigrams;
    AddAllKeys(c.unigrams, tokens);
    AddAllCounts(c.unigrams, tokens);
    forall t | t in u ensures u[t] > 0 {
      assert Get(u, t) == Get(c.unigrams, t) + multiset(tokens)[t];
      if t !in c.unigrams {
        assert t in tokens;
      }
    }
  }

  /** Each row still adds up to its unigram count, `<END>` now short by one more line. */
  lemma ObserveRowTotals(c: Counts, n: nat, line: string)
    requires forall t {:trigger Row(c.bigrams, t)} :: Total(Row(c.bigrams, t)) + (if t == End then n else 0) == Get(c.unigrams, t)
    ensures var c' := Observe(c, line);
            forall t {:trigger Row(c'.bigrams, t)} :: Total(Row(c'.bigrams, t)) + (if t == End then n + 1 else 0) == Get(c'.unigrams, t)
  {
    var tokens := Tokens(line);
    var k := |tokens|;
    var c' := Observe(c, line);
    AddAllCounts(c.unigrams, tokens);
    AddPairsRows(c.bigrams, tokens);
    assert tokens == tokens[..k - 1] + [End];
    forall t ensures Total(Row(c'.bigrams, t)) + (if t == End then n + 1 else 0) == Get(c'.unigrams, t) {
      assert Total(Row(c.bigrams, t)) + (if t == End then n else 0) == Get(c.unigrams, t);
      assert multiset(tokens)[t] == multiset(tokens[..k - 1])[t] + (if t == End then 1 else 0);
    }
  }

  /** The tables of a fresh model trained on any lines are well formed. */
  lemma {:induction false} TrainedWellFormed(lines: seq<string>)
    ensures WellFormed(Trained(lines), |lines|)
    decreases |lines|
  {
    if lines != [] {
      var n := |lines|;
      TrainedWellFormed(lines[..n - 1]);
      ObserveWellFormed(Trained(lines[..n - 1]), n - 1, lines[n - 1]);
    }
  }

  /** Training one line of w words adds w + 2 to the unigram total and w + 1 to the bigram total. */
  lemma ObserveTotals(c: Counts, line: string)
    ensures Total(Observe(c, line).unigrams) == Total(c.unigrams) + |Split(line)| + 2
    ensures TableTotal(Observe(c, line).bigrams) == TableTotal(c.bigrams) + |Split(line)| + 1
  {
    AddAllTotal(c.unigrams, Tokens(line));
    AddPairsTotal(c.bigrams, Tokens(line));
  }

  /** After training on at least one line the vocabulary holds `<START>` and `<END>`. */
  lemma TrainedVocabulary(lines: seq<string>)
    requires lines != []
    ensures Start in Trained(lines).vocab && End in Trained(lines).vocab
  {
    var n := |lines|;
    var tokens := Tokens(lines[n - 1]);
    assert Trained(lines) == Observe(Trained(lines[..n - 1]), lines[n - 1]);
    assert tokens[0] == Start && tokens[|tokens| - 1] == End;
  }

  /** Over a whole corpus: one unigram per token, one bigram per token but the last of each line. */
  lemma {:induction false} TrainedTotals(lines: seq<string>)
    ensures Total(Trained(lines).unigrams) == TokenCount(lines)
    ensures TableTotal(Trained(lines).bigrams) + |lines| == TokenCount(lines)
    decreases |lines|
  {
    if lines == [] {
      assert Trained(lines).bigrams == map[];
      assert RowTotals(map[]) == map[];
    } else {
      var n := |lines|;
      TrainedTotals(lines[..n - 1]);
      ObserveTotals(Trained(lines[..n - 1]), lines[n - 1]);
    }
  }
}
