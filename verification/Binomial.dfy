/** The exact one-sided binomial tails behind both release gates. */
module Binomial {

  function Factorial(n: nat): nat
  {
    if n == 0 then 1 else n * Factorial(n - 1)
  }

  function Choose(n: nat, k: nat): nat
  {
    if k == 0 then 1 else if n == 0 then 0 else Choose(n - 1, k - 1) + Choose(n - 1, k)
  }

  function Pow2(n: nat): nat
  {
    if n == 0 then 1 else 2 * Pow2(n - 1)
  }

  /** The numerator: the sum of Choose(n, j) for j from k to n. */
  function Tail(n: nat, k: nat): nat
    decreases n + 1 - k
  {
    if k > n then 0 else Choose(n, k) + Tail(n, k + 1)
  }

  // ------------------------------------------------------- coefficients

  lemma {:induction false} ChooseOutside(n: nat, k: nat)
    requires k > n
    ensures Choose(n, k) == 0
  {
    if n > 0 {
      ChooseOutside(n - 1, k - 1);
      ChooseOutside(n - 1, k);
    }
  }

  lemma {:induction false} ChoosePositive(n: nat, k: nat)
    requires k <= n
    ensures Choose(n, k) >= 1
  {
    if k > 0 {
      ChoosePositive(n - 1, k - 1);
    }
  }

  lemma {:induction false} ChooseAll(n: nat)
    ensures Choose(n, n) == 1
  {
    if n > 0 {
      ChooseAll(n - 1);
      ChooseOutside(n - 1, n);
    }
  }

  /** Choose is the quotient of factorials that a combination count is defined by. */
  lemma {:induction false} ChooseIsFactorialQuotient(n: nat, k: nat)
    requires k <= n
    ensures Choose(n, k) * Factorial(k) * Factorial(n - k) == Factorial(n)
  {
    if k == n {
      ChooseAll(n);
    } else if k > 0 {
      ChooseIsFactorialQuotient(n - 1, k - 1);
      ChooseIsFactorialQuotient(n - 1, k);
      PascalProduct(Choose(n - 1, k - 1), Choose(n - 1, k), k, n - k,
                    Factorial(k - 1), Factorial(n - k - 1), Factorial(n - 1));
    }
  }

  lemma PascalProduct(a: nat, b: nat, k: nat, m: nat, fk: nat, fm: nat, f: nat)
    requires a * fk * (m * fm) == f && b * (k * fk) * fm == f
    ensures (a + b) * (k * fk) * (m * fm) == (k + m) * f
  {
    calc {
      (a + b) * (k * fk) * (m * fm);
      a * (k * fk) * (m * fm) + b * (k * fk) * (m * fm);
      { assert a * (k * fk) == k * (a * fk); assert b * (k * fk) * (m * fm) == m * (b * (k * fk) * fm); }
      k * (a * fk) * (m * fm) + m * f;
      { assert k * (a * fk) * (m * fm) == k * (a * fk * (m * fm)); }
      k * f + m * f;
    }
  }

  // --------------------------------------------------------------- tails

  /** Pascal's rule, summed. */
  lemma {:induction false} TailPascal(n: nat, k: nat)
    ensures Tail(n + 1, k + 1) == Tail(n, k) + Tail(n, k + 1)
    decreases n + 1 - k
  {
    if k <= n {
      TailPascal(n, k + 1);
      if k == n {
        ChooseOutside(n, n + 1);
      }
    }
  }

  lemma {:induction false} TailAntitone(n: nat, k: nat, m: nat)
    requires k <= m
    ensures Tail(n, m) <= Tail(n, k)
    decreases m - k
  {
    if k < m {
      TailAntitone(n, k + 1, m);
    }
  }

  /** The row sum. */
  lemma {:induction false} TailAll(n: nat)
    ensures Tail(n, 0) == Pow2(n)
  {
    if n > 0 {
      TailAll(n - 1);
      TailPascal(n - 1, 0);
    }
  }

  /** At least k heads and at least n+1-k tails exclude each other and cover everything. */
  lemma {:induction false} TailComplement(n: nat, k: nat)
    requires k <= n + 1
    ensures Tail(n, k) + Tail(n, n + 1 - k) == Pow2(n)
  {
    if k == 0 || k == n + 1 {
      TailAll(n);
    } else {
      var below := n - 1;
      TailPascal(below, k - 1);
      TailPascal(below, n - k);
      TailComplement(below, k - 1);
      TailComplement(below, k);
    }
  }

  lemma TailAtLeastHalf(losses: nat, wins: nat)
    requires losses <= wins
    ensures 2 * Tail(losses + wins, losses) >= Pow2(losses + wins)
  {
    TailComplement(losses + wins, losses);
    TailAntitone(losses + wins, losses, wins + 1);
  }

  lemma PowPositive(n: nat)
    ensures Pow2(n) >= 1
  {
  }

  // ------------------------------------------------------------ p-values

  /** The coding gate's p-value: the full tail. */
  function ExactRegressionP(baselineOnly: nat, candidateOnly: nat): real
  {
    var discordant := baselineOnly + candidateOnly;
    if discordant == 0 then 1.0
    else PowPositive(discordant); Tail(discordant, baselineOnly) as real / Pow2(discordant) as real
  }

  /** The release gate's p-value: the same tail, but 1 without summing when losses <= wins. */
  function OneSidedLossP(losses: nat, wins: nat): real
  {
    var total := losses + wins;
    if total == 0 || losses <= wins then 1.0
    else PowPositive(total); Tail(total, losses) as real / Pow2(total) as real
  }

  lemma Fractions(a: nat, m: nat, b: nat, n: nat)
    requires m > 0 && n > 0
    ensures a * n <= b * m ==> a as real / m as real <= b as real / n as real
    ensures a * n < b * m ==> (a as real / m as real) < (b as real / n as real)
  {
    var x, y := a as real / m as real, b as real / n as real;
    assert x * m as real == a as real && y * n as real == b as real;
    assert (a * n) as real == x * (m as real * n as real);
    assert (b * m) as real == y * (m as real * n as real);
    assert m as real * n as real > 0.0;
  }

  lemma ExactIsProbability(losses: nat, wins: nat)
    ensures 0.0 < ExactRegressionP(losses, wins) <= 1.0
    ensures losses <= wins ==> ExactRegressionP(losses, wins) >= 0.5
    ensures losses > wins ==> ExactRegressionP(losses, wins) == OneSidedLossP(losses, wins)
  {
    var n := losses + wins;
    PowPositive(n);
    TailAll(n);
    TailAntitone(n, 0, losses);
    ChoosePositive(n, losses);
    Fractions(0, 1, Tail(n, losses), Pow2(n));
    Fractions(Tail(n, losses), Pow2(n), 1, 1);
    if losses <= wins {
      TailAtLeastHalf(losses, wins);
      Fractions(1, 2, Tail(n, losses), Pow2(n));
    }
  }

  /** The two implementations always reach the same verdict at any threshold up to one half, and
      so at 0.05, though they report different numbers. */
  lemma SameVerdict(losses: nat, wins: nat, alpha: real)
    requires alpha <= 0.5
    ensures OneSidedLossP(losses, wins) >= alpha <==> ExactRegressionP(losses, wins) >= alpha
    ensures losses <= wins ==> ExactRegressionP(losses, wins) >= alpha
  {
    ExactIsProbability(losses, wins);
  }

  lemma TailStrict(n: nat, k: nat)
    requires k <= n
    ensures Tail(n, k + 1) < Tail(n, k)
  {
    ChoosePositive(n, k);
  }

  lemma ExactAsFraction(losses: nat, wins: nat)
    ensures Pow2(losses + wins) >= 1
    ensures ExactRegressionP(losses, wins)
         == Tail(losses + wins, losses) as real / Pow2(losses + wins) as real
  {
    PowPositive(losses + wins);
  }

  /** One more loss strictly lowers the exact p-value. */
  lemma LossLowersP(losses: nat, wins: nat)
    ensures ExactRegressionP(losses + 1, wins) < ExactRegressionP(losses, wins)
  {
    var n := losses + wins;
    ExactAsFraction(losses, wins);
    ExactAsFraction(losses + 1, wins);
    TailPascal(n, losses);
    TailStrict(n, losses);
    Doubling(Tail(n + 1, losses + 1), Pow2(n), Tail(n, losses));
    Fractions(Tail(n + 1, losses + 1), Pow2(n + 1), Tail(n, losses), Pow2(n));
  }

  /** One more win never lowers it, and strictly raises it once there is a loss to offset. */
  lemma WinRaisesP(losses: nat, wins: nat)
    ensures ExactRegressionP(losses, wins) <= ExactRegressionP(losses, wins + 1)
    ensures losses > 0 ==> ExactRegressionP(losses, wins) < ExactRegressionP(losses, wins + 1)
  {
    var n := losses + wins;
    ExactAsFraction(losses, wins);
    ExactAsFraction(losses, wins + 1);
    if losses == 0 {
      WholeTails(n);
      Fractions(Tail(n, losses), Pow2(n), Tail(n + 1, losses), Pow2(n + 1));
    } else {
      WinDoublesTail(n, losses);
      Doubling(Tail(n, losses), Pow2(n), Tail(n + 1, losses));
      Fractions(Tail(n, losses), Pow2(n), Tail(n + 1, losses), Pow2(n + 1));
    }
  }

  lemma WholeTails(n: nat)
    ensures Tail(n, 0) * Pow2(n + 1) <= Tail(n + 1, 0) * Pow2(n)
  {
    TailAll(n);
    TailAll(n + 1);
  }

  lemma WinDoublesTail(n: nat, losses: nat)
    requires 0 < losses <= n
    ensures 2 * Tail(n, losses) < Tail(n + 1, losses)
  {
    TailPascal(n, losses - 1);
    TailStrict(n, losses - 1);
  }

  lemma Doubling(a: nat, p: nat, b: nat)
    requires p > 0
    ensures a < 2 * b ==> a * p < b * (2 * p)
    ensures 2 * a < b ==> a * (2 * p) < b * p
  {
    assert b * (2 * p) == (2 * b) * p && a * (2 * p) == (2 * a) * p;
    if a < 2 * b {
      assert (2 * b - a) * p > 0;
    }
    if 2 * a < b {
      assert (b - 2 * a) * p > 0;
    }
  }

  /** Fewer losses and more wins never lower the exact p-value. */
  lemma {:induction false} ExactMonotone(losses: nat, wins: nat, losses': nat, wins': nat)
    requires losses' <= losses && wins <= wins'
    ensures ExactRegressionP(losses, wins) <= ExactRegressionP(losses', wins')
    decreases losses - losses' + wins' - wins
  {
    if losses' < losses {
      LossLowersP(losses - 1, wins);
      ExactMonotone(losses - 1, wins, losses', wins');
    } else if wins < wins' {
      WinRaisesP(losses, wins);
      ExactMonotone(losses, wins + 1, losses', wins');
    }
  }

  /** The shortcut p-value is monotone in the evidence as well. */
  lemma OneSidedMonotone(losses: nat, wins: nat, losses': nat, wins': nat)
    requires losses' <= losses && wins <= wins'
    ensures OneSidedLossP(losses, wins) <= OneSidedLossP(losses', wins')
  {
    ExactMonotone(losses, wins, losses', wins');
    ExactIsProbability(losses, wins);
    ExactIsProbability(losses', wins');
  }
}
