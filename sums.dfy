/**
 * Sums of real-valued functions over a finite set of tokens: what "the
 * probabilities over the vocabulary add up to 1" means.
 */
module Sums {
  import opened Counters

  /** The sum of `f(x)` over `x` in `s`. */
  ghost function SumOver<T>(s: set<T>, f: T -> real): real {
    if s == {} then 0.0
    else
      var x :| x in s;
      f(x) + SumOver(s - {x}, f)
  }

  /** The sum does not depend on which element is taken out first. */
  lemma {:induction false} SumOverRemove<T>(s: set<T>, f: T -> real, x: T)
    requires x in s
    ensures SumOver(s, f) == f(x) + SumOver(s - {x}, f)
  {
    var y :| y in s && SumOver(s, f) == f(y) + SumOver(s - {y}, f);
    if y != x {
      SumOverRemove(s - {y}, f, x);
      SumOverRemove(s - {x}, f, y);
      assert s - {y} - {x} == s - {x} - {y};
    }
  }

  /** Dividing every term by `c` divides the sum by `c`. */
  lemma {:induction false} SumScale<T>(s: set<T>, f: T -> real, g: T -> real, c: real)
    requires c != 0.0
    requires forall x :: x in s ==> f(x) == g(x) / c
    ensures SumOver(s, f) == SumOver(s, g) / c
  {
    if s != {} {
      var x :| x in s;
      SumOverRemove(s, f, x);
      SumOverRemove(s, g, x);
      SumScale(s - {x}, f, g, c);
      AddQuotients(g(x), SumOver(s - {x}, g), c);
    }
  }

  /** `a` added to itself `n` times. */
  ghost function Times(n: nat, a: real): real {
    if n == 0 then 0.0 else Times(n - 1, a) + a
  }

  lemma {:induction false} TimesProduct(n: nat, a: real)
    ensures Times(n, a) == n as real * a
  {
    if n > 0 {
      TimesProduct(n - 1, a);
    }
  }

  lemma AddQuotients(p: real, q: real, c: real)
    requires c != 0.0
    ensures p / c + q / c == (p + q) / c
  {
  }

  /** The numerator of an add-k estimate: the count of `t` plus `k`. */
  function AddK(m: Counter, k: real, t: string): real {
    Get(m, t) as real + k
  }

  /** The denominator of an add-k estimate: a total plus `k` for each of `size` tokens. */
  function AddKDenominator(total: nat, size: nat, k: real): real {
    total as real + size as real * k
  }

  /** The counts of a counter as a function of the token. */
  function CountsOf(m: Counter): string -> real {
    t => Get(m, t) as real
  }

  /** The add-k numerators of a counter as a function of the token. */
  function AddKOf(m: Counter, k: real): string -> real {
    t => AddK(m, k, t)
  }

  /** Summing the counts of a counter over a set that holds all its keys gives its total. */
  lemma {:induction false} SumOfCounts(s: set<string>, m: Counter, f: string -> real)
    requires m.Keys <= s
    requires forall t :: t in s ==> f(t) == Get(m, t) as real
    ensures SumOver(s, f) == Total(m) as real
  {
    if s == {} {
      assert m == map[];
    } else {
      var x :| x in s;
      SumOverRemove(s, f, x);
      var m' := m - {x};
      SumOfCounts(s - {x}, m', f);
      if x in m {
        TotalRemove(m, x);
      } else {
        assert m' == m;
      }
    }
  }

  /**
   * Add-k numerators summed over a set holding all keys of the counter give the
   * counter's total plus `k` once per element.
   */
  lemma {:induction false} AddKSum(s: set<string>, m: Counter, k: real)
    requires m.Keys <= s
    ensures SumOver(s, AddKOf(m, k)) == Total(m) as real + Times(|s|, k)
  {
    if s != {} {
      var g := AddKOf(m, k);
      var x :| x in s;
      var s' := s - {x};
      var m' := m - {x};
      SumOverRemove(s, g, x);
      AddKSumAgree(s', m, m', k);
      AddKSum(s', m', k);
      assert |s'| == |s| - 1;
      assert Times(|s|, k) == Times(|s'|, k) + k;
      if x in m {
        TotalRemove(m, x);
      } else {
        assert m' == m;
      }
    }
  }

  /** Counters that agree on `s` have the same add-k numerators over `s`. */
  lemma AddKSumAgree(s: set<string>, m: Counter, m': Counter, k: real)
    requires forall t :: t in s ==> Get(m, t) == Get(m', t)
    ensures SumOver(s, AddKOf(m, k)) == SumOver(s, AddKOf(m', k))
  {
    SumAgree(s, AddKOf(m, k), AddKOf(m', k));
  }

  /** Functions that agree on `s` have the same sum over `s`. */
  lemma {:induction false} SumAgree<T>(s: set<T>, f: T -> real, g: T -> real)
    requires forall x :: x in s ==> f(x) == g(x)
    ensures SumOver(s, f) == SumOver(s, g)
  {
    if s != {} {
      var x :| x in s;
      SumOverRemove(s, f, x);
      SumOverRemove(s, g, x);
      SumAgree(s - {x}, f, g);
    }
  }

  /**
   * Count-over-`d` estimates, with `d` = total + `e`, add up over a set holding
   * all keys of the counter to (d - e) / d: to 1 when nothing is held back.
   */
  lemma CountsNormalised(s: set<string>, m: Counter, f: string -> real, d: real, e: real)
    requires m.Keys <= s
    requires d != 0.0
    requires d == Total(m) as real + e
    requires forall t :: t in s ==> f(t) == Get(m, t) as real / d
    ensures SumOver(s, f) == (d - e) / d
    ensures e == 0.0 ==> SumOver(s, f) == 1.0
  {
    SumOfCounts(s, m, CountsOf(m));
    SumScale(s, f, CountsOf(m), d);
    Quotient(SumOver(s, f), SumOver(s, CountsOf(m)), d, e);
  }

  /**
   * Add-k estimates with denominator `d` = total + |s| * k + `e` add up over `s`
   * to (d - e) / d: to 1 when nothing is held back. (|s| * k is written as a
   * repeated sum here; `TimesProduct` relates the two.)
   */
  lemma AddKNormalised(s: set<string>, m: Counter, f: string -> real, k: real, d: real, e: real)
    requires m.Keys <= s
    requires d != 0.0
    requires d - e == Total(m) as real + Times(|s|, k)
    requires forall t :: t in s ==> f(t) == AddK(m, k, t) / d
    ensures SumOver(s, f) == (d - e) / d
    ensures e == 0.0 ==> SumOver(s, f) == 1.0
  {
    AddKSum(s, m, k);
    SumScale(s, f, AddKOf(m, k), d);
    Quotient(SumOver(s, f), SumOver(s, AddKOf(m, k)), d, e);
  }

  /** A denominator t + n * k + e, less e, is t plus k added n times. */
  lemma TimesDenominator(t: real, n: nat, k: real, d: real, e: real)
    requires d == t + n as real * k + e
    ensures d - e == t + Times(n, k)
  {
    TimesProduct(n, k);
  }

  /** A quotient x / d where x falls short of d by e is (d - e) / d, and 1 when e is 0. */
  lemma Quotient(p: real, x: real, d: real, e: real)
    requires d != 0.0
    requires p == x / d
    requires x == d - e
    ensures p == (d - e) / d
    ensures e == 0.0 ==> p == 1.0
  {
  }
}
