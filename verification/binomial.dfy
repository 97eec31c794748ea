/** Binomial coefficients and the facts about them that the sign test of
    src/llm_eval/stats.py relies on: each row of Pascal's triangle sums to a
    power of two, is symmetric, and peaks in the middle. */
module Binomial {

  /** `math.comb(n, k)`, by Pascal's rule; 0 when `k > n`. */
  function Choose(n: nat, k: nat): nat
    decreases n
  {
    if k == 0 then 1
    else if n == 0 then 0
    else Choose(n - 1, k - 1) + Choose(n - 1, k)
  }

  function Pow2(n: nat): nat
    ensures Pow2(n) >= 1
  {
    if n == 0 then 1 else 2 * Pow2(n - 1)
  }

  /** `Choose(n, 0) + ... + Choose(n, m - 1)`. */
  function RowSum(n: nat, m: nat): nat
    decreases m
  {
    if m == 0 then 0 else RowSum(n, m - 1) + Choose(n, m - 1)
  }

  lemma {:induction false} ChooseAbove(n: nat, k: nat)
    requires k > n
    ensures Choose(n, k) == 0
    decreases n
  {
    if n > 0 {
      ChooseAbove(n - 1, k - 1);
      ChooseAbove(n - 1, k);
    }
  }

  lemma {:induction false} ChooseAll(n: nat)
    ensures Choose(n, n) == 1
    decreases n
  {
    if n > 0 {
      ChooseAll(n - 1);
      ChooseAbove(n - 1, n);
    }
  }

  lemma {:induction false} ChoosePositive(n: nat, k: nat)
    requires k <= n
    ensures Choose(n, k) >= 1
    decreases n
  {
    if k > 0 && n > 0 {
      ChoosePositive(n - 1, k - 1);
    }
  }

  /** Pascal's rule on partial row sums. */
  lemma {:induction false} RowSumStep(n: nat, m: nat)
    ensures RowSum(n + 1, m + 1) == RowSum(n, m) + RowSum(n, m + 1)
    decreases m
  {
    if m > 0 {
      RowSumStep(n, m - 1);
    }
  }

  /** The whole row `n` sums to `2^n`. */
  lemma {:induction false} RowSumPow2(n: nat)
    ensures RowSum(n, n + 1) == Pow2(n)
    decreases n
  {
    if n > 0 {
      RowSumPow2(n - 1);
      RowSumStep(n - 1, n);
      ChooseAbove(n - 1, n);
    }
  }

  /** The row is symmetric. */
  lemma {:induction false} ChooseSymmetric(n: nat, k: nat)
    requires k <= n
    ensures Choose(n, k) == Choose(n, n - k)
    decreases n
  {
    if n > 0 {
      if k == 0 {
        ChooseAll(n);
      } else if k == n {
        ChooseAll(n);
      } else {
        ChooseSymmetric(n - 1, k - 1);
        ChooseSymmetric(n - 1, k);
        assert n - k == (n - 1 - k) + 1;
      }
    }
  }

  /** The row increases up to its middle. */
  lemma {:induction false} ChooseRising(n: nat, i: nat)
    requires 2 * (i + 1) <= n
    ensures Choose(n, i) <= Choose(n, i + 1)
    decreases n
  {
    if i == 0 {
      ChoosePositive(n - 1, 0);
      assert Choose(n, 1) == Choose(n - 1, 0) + Choose(n - 1, 1);
    } else {
      var m := n - 1;
      if 2 * (i + 1) <= m {
        ChooseRising(m, i - 1);
        ChooseRising(m, i);
      } else {
        // m == 2 * i + 1: the two middle entries of row m are equal.
        ChooseRising(m, i - 1);
        ChooseSymmetric(m, i);
        assert m - i == i + 1;
      }
    }
  }

  lemma {:induction false} ChooseBelowMiddle(n: nat, i: nat)
    requires i <= n / 2
    ensures Choose(n, i) <= Choose(n, n / 2)
    decreases n / 2 - i
  {
    if i < n / 2 {
      ChooseRising(n, i);
      ChooseBelowMiddle(n, i + 1);
    }
  }

  /** The middle of the row is its largest entry. */
  lemma ChooseMiddleIsMax(n: nat, i: nat)
    ensures Choose(n, i) <= Choose(n, n / 2)
  {
    if i > n {
      ChooseAbove(n, i);
    } else if i <= n / 2 {
      ChooseBelowMiddle(n, i);
    } else {
      ChooseSymmetric(n, i);
      ChooseBelowMiddle(n, n - i);
    }
  }
}
