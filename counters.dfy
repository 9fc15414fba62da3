/**
 * Python's `Counter` and `defaultdict(Counter)` as finite maps in which a
 * missing key reads as 0, with the increments that training performs and
 * the totals that the probability formulas divide by.
 */
module Counters {

  /** A `Counter` over tokens. */
  type Counter = map<string, nat>

  /** A `defaultdict(Counter)`: preceding token to a counter of following tokens. */
  type Table = map<string, Counter>

  /** Reading a counter: a missing key reads as 0 and is not inserted. */
  function Get(m: Counter, t: string): nat {
    if t in m then m[t] else 0
  }

  /** One increment of a counter's entry. */
  function Bump(m: Counter, t: string): (r: Counter)
    ensures r.Keys == m.Keys + {t}
    ensures Get(r, t) == Get(m, t) + 1
    ensures forall u :: u != t ==> Get(r, u) == Get(m, u)
  {
    m[t := Get(m, t) + 1]
  }

  /** Reading a row of the table: a missing row reads as an empty counter. */
  function Row(b: Table, t: string): Counter {
    if t in b then b[t] else map[]
  }

  /** One increment of the count of the pair (t1, t2). */
  function BumpPair(b: Table, t1: string, t2: string): Table {
    b[t1 := Bump(Row(b, t1), t2)]
  }

  /** Updating a counter with a token list: one increment per occurrence, left to right. */
  function AddAll(m: Counter, tokens: seq<string>): Counter
    decreases |tokens|
  {
    if tokens == [] then m
    else Bump(AddAll(m, tokens[..|tokens| - 1]), tokens[|tokens| - 1])
  }

  /** One increment of the table for each adjacent pair of `tokens`, left to right. */
  function AddPairs(b: Table, tokens: seq<string>): Table
    decreases |tokens|
  {
    if |tokens| < 2 then b
    else BumpPair(AddPairs(b, tokens[..|tokens| - 1]), tokens[|tokens| - 2], tokens[|tokens| - 1])
  }

  /** The sum of all counts of `m`. */
  ghost function Total<K>(m: map<K, nat>): nat {
    SumOf(m, m.Keys)
  }

  /** The sum of the counts of the keys in `s`. */
  ghost function SumOf<K>(m: map<K, nat>, s: set<K>): nat
    requires s <= m.Keys
  {
    if s == {} then 0
    else
      var x :| x in s;
      m[x] + SumOf(m, s - {x})
  }

  /** The sum of all counts of a table, row by row. */
  ghost function TableTotal(b: Table): nat {
    Total(RowTotals(b))
  }

  ghost function RowTotals(b: Table): Counter {
    map t | t in b :: Total(b[t])
  }

  /** Every key of `b` lies in `s`, and so does every key of every row, with a positive count. */
  ghost predicate RowsWithin(b: Table, s: set<string>) {
    forall t1 :: t1 in b ==> t1 in s && forall t2 :: t2 in b[t1] ==> t2 in s && b[t1][t2] > 0
  }

  // ---------------------------------------------------------------- totals

  /** A partial sum does not depend on which key is taken out first. */
  lemma {:induction false} SumOfRemove<K>(m: map<K, nat>, s: set<K>, x: K)
    requires s <= m.Keys && x in s
    ensures SumOf(m, s) == m[x] + SumOf(m, s - {x})
  {
    var y :| y in s && SumOf(m, s) == m[y] + SumOf(m, s - {y});
    if y != x {
      SumOfRemove(m, s - {y}, x);
      SumOfRemove(m, s - {x}, y);
      assert s - {y} - {x} == s - {x} - {y};
    }
  }

  /** Partial sums see only the counts of the keys they range over. */
  lemma {:induction false} SumOfAgree<K>(m: map<K, nat>, m': map<K, nat>, s: set<K>)
    requires s <= m.Keys && s <= m'.Keys
    requires forall x :: x in s ==> m[x] == m'[x]
    ensures SumOf(m, s) == SumOf(m', s)
  {
    if s != {} {
      var x :| x in s;
      SumOfRemove(m, s, x);
      SumOfRemove(m', s, x);
      SumOfAgree(m, m', s - {x});
    }
  }

  /** The total is any one count plus the total of the rest. */
  lemma TotalRemove<K>(m: map<K, nat>, x: K)
    requires x in m
    ensures Total(m) == m[x] + Total(m - {x})
  {
    SumOfRemove(m, m.Keys, x);
    assert (m - {x}).Keys == m.Keys - {x};
    SumOfAgree(m, m - {x}, m.Keys - {x});
  }

  /** No single count exceeds the total. */
  lemma CountWithinTotal(m: Counter, t: string)
    ensures Get(m, t) <= Total(m)
  {
    if t in m {
      TotalRemove(m, t);
    }
  }

  /** Setting one count changes the total by the difference. */
  lemma TotalUpdate(m: Counter, t: string, v: nat)
    ensures Total(m[t := v]) + Get(m, t) == Total(m) + v
  {
    TotalRemove(m[t := v], t);
    assert m[t := v] - {t} == m - {t};
    if t in m {
      TotalRemove(m, t);
    } else {
      assert m - {t} == m;
    }
  }

  /** One increment adds one to the total. */
  lemma TotalBump(m: Counter, t: string)
    ensures Total(Bump(m, t)) == Total(m) + 1
  {
    TotalUpdate(m, t, Get(m, t) + 1);
  }

  // ---------------------------------------------------------------- AddAll

  /** After `update(tokens)` each count has grown by the token's number of occurrences. */
  lemma {:induction false} AddAllCounts(m: Counter, tokens: seq<string>)
    ensures forall t :: Get(AddAll(m, tokens), t) == Get(m, t) + multiset(tokens)[t]
    decreases |tokens|
  {
    if tokens != [] {
      var n := |tokens|;
      AddAllCounts(m, tokens[..n - 1]);
      assert tokens == tokens[..n - 1] + [tokens[n - 1]];
    }
  }

  /** `update(tokens)` adds exactly the tokens as keys. */
  lemma {:induction false} AddAllKeys(m: Counter, tokens: seq<string>)
    ensures AddAll(m, tokens).Keys == m.Keys + set t | t in tokens
    decreases |tokens|
  {
    if tokens != [] {
      var n := |tokens|;
      AddAllKeys(m, tokens[..n - 1]);
      assert tokens == tokens[..n - 1] + [tokens[n - 1]];
    }
  }

  /** `update(tokens)` adds `len(tokens)` to the total. */
  lemma {:induction false} AddAllTotal(m: Counter, tokens: seq<string>)
    ensures Total(AddAll(m, tokens)) == Total(m) + |tokens|
    decreases |tokens|
  {
    if tokens != [] {
      AddAllTotal(m, tokens[..|tokens| - 1]);
      TotalBump(AddAll(m, tokens[..|tokens| - 1]), tokens[|tokens| - 1]);
    }
  }

  // ---------------------------------------------------------------- AddPairs

  /** Row `t` gains one count for each position of `t` that starts an adjacent pair. */
  lemma {:induction false} AddPairsRows(b: Table, tokens: seq<string>)
    requires |tokens| >= 1
    ensures forall t :: Total(Row(AddPairs(b, tokens), t)) == Total(Row(b, t)) + multiset(tokens[..|tokens| - 1])[t]
    decreases |tokens|
  {
    var n := |tokens|;
    if n >= 2 {
      var prefix := tokens[..n - 1];
      AddPairsRows(b, prefix);
      var b' := AddPairs(b, prefix);
      assert AddPairs(b, tokens) == BumpPair(b', tokens[n - 2], tokens[n - 1]);
      assert prefix[..n - 2] == tokens[..n - 2];
      assert tokens[..n - 1] == tokens[..n - 2] + [tokens[n - 2]];
      forall t ensures Total(Row(AddPairs(b, tokens), t)) == Total(Row(b, t)) + multiset(tokens[..n - 1])[t] {
        BumpPairRow(b', tokens[n - 2], tokens[n - 1], t);
      }
    } else {
      assert tokens[..n - 1] == [];
    }
  }

  /** Bumping a pair adds one to the total of its row and leaves the other rows alone. */
  lemma BumpPairRow(b: Table, t1: string, t2: string, t: string)
    ensures Total(Row(BumpPair(b, t1, t2), t)) == Total(Row(b, t)) + (if t == t1 then 1 else 0)
  {
    if t == t1 {
      TotalBump(Row(b, t1), t2);
    } else {
      assert Row(BumpPair(b, t1, t2), t) == Row(b, t);
    }
  }

  /** Counting the pairs of a prefix one token longer adds its last pair. */
  lemma AddPairsStep(b: Table, tokens: seq<string>, j: nat)
    requires 1 <= j < |tokens|
    ensures AddPairs(b, tokens[..j + 1]) == BumpPair(AddPairs(b, tokens[..j]), tokens[j - 1], tokens[j])
  {
    assert tokens[..j + 1][..j] == tokens[..j];
  }

  /** Adding pairs drawn from `s` to a table whose keys lie in `s` keeps them there. */
  lemma {:induction false} AddPairsWithin(b: Table, tokens: seq<string>, s: set<string>)
    requires RowsWithin(b, s)
    requires forall i :: 0 <= i < |tokens| ==> tokens[i] in s
    ensures RowsWithin(AddPairs(b, tokens), s)
    decreases |tokens|
  {
    if |tokens| >= 2 {
      AddPairsWithin(b, tokens[..|tokens| - 1], s);
    }
  }

  /** One increment of a pair adds one to the table's total. */
  lemma TableTotalBumpPair(b: Table, t1: string, t2: string)
    ensures TableTotal(BumpPair(b, t1, t2)) == TableTotal(b) + 1
  {
    TotalBump(Row(b, t1), t2);
    var r := RowTotals(b);
    assert Get(r, t1) == Total(Row(b, t1));
    assert RowTotals(BumpPair(b, t1, t2)) == Bump(r, t1);
    TotalBump(r, t1);
  }

  /** A line of n tokens adds n - 1 to the table's total. */
  lemma {:induction false} AddPairsTotal(b: Table, tokens: seq<string>)
    requires |tokens| >= 1
    ensures TableTotal(AddPairs(b, tokens)) == TableTotal(b) + |tokens| - 1
    decreases |tokens|
  {
    var n := |tokens|;
    if n >= 2 {
      AddPairsTotal(b, tokens[..n - 1]);
      TableTotalBumpPair(AddPairs(b, tokens[..n - 1]), tokens[n - 2], tokens[n - 1]);
    }
  }
}
