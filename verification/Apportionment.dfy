/** Largest-remainder quotas with caps, and evenly spaced picks. Repositories are the positions of
    REPO_ORDER; shares are exact rationals over the common denominator `pool`. */
module Apportionment {
  import opened Sequences

  function Value(x: nat): int { x }

  function Total(xs: seq<nat>): (t: nat)
  {
    SumNonNegative(xs, Value);
    Sum(xs, Value)
  }

  function Below(n: nat): seq<nat>
  {
    seq(n, i => i)
  }

  ghost predicate Within(xs: seq<nat>, caps: seq<nat>)
  {
    |xs| == |caps| && forall k :: 0 <= k < |xs| ==> xs[k] <= caps[k]
  }

  predicate HasRoom(out: seq<nat>, sizes: seq<nat>)
    requires |out| == |sizes|
  {
    exists k :: 0 <= k < |out| && out[k] < sizes[k]
  }

  ghost predicate Enumerates(order: seq<nat>, n: nat)
  {
    && |order| == n
    && (forall j :: 0 <= j < n ==> order[j] < n)
    && (forall k :: 0 <= k < n ==> k in order)
  }

  // ------------------------------------------------- the cyclic fill loop

  lemma ScaleAtLeast(n: nat, k: int)
    requires k >= 1
    ensures n * k >= n
  {
    assert n * (k - 1) >= 0;
  }

  lemma QuotientUnique(x: int, n: nat, q: int, r: nat)
    requires r < n && x == n * q + r
    ensures x / n == q && x % n == r
  {
    assert n * (q - x / n) == x % n - r;
    if q > x / n {
      ScaleAtLeast(n, q - x / n);
    } else if q < x / n {
      ScaleAtLeast(n, x / n - q);
    }
  }

  lemma CyclicDistance(i: nat, j: nat, n: nat) returns (d: nat)
    requires j < n
    ensures d < n && (i + d) % n == j
  {
    var q, r := i / n, i % n;
    if j >= r {
      d := j - r;
      QuotientUnique(i + d, n, q, j);
    } else {
      d := n - r + j;
      QuotientUnique(i + d, n, q + 1, j);
    }
  }

  lemma {:induction false} TotalStrict(out: seq<nat>, sizes: seq<nat>)
    requires Within(out, sizes)
    ensures Total(out) <= Total(sizes)
    ensures HasRoom(out, sizes) <==> Total(out) < Total(sizes)
  {
    if out != [] {
      var n := |out| - 1;
      TotalStrict(out[..n], sizes[..n]);
      if HasRoom(out, sizes) {
        var k :| 0 <= k < |out| && out[k] < sizes[k];
        assert k < n ==> out[..n][k] < sizes[..n][k];
      }
      if HasRoom(out[..n], sizes[..n]) {
        var k :| 0 <= k < n && out[..n][k] < sizes[..n][k];
        assert out[k] < sizes[k];
      }
    }
  }

  lemma TotalBump(out: seq<nat>, k: nat)
    requires k < |out|
    ensures Total(out[k := out[k] + 1]) == Total(out) + 1
  {
    SumUpdate(out, k, out[k] + 1, Value);
  }

  ghost predicate SlotOpen(out: seq<nat>, sizes: seq<nat>, order: seq<nat>, i: nat)
    requires Within(out, sizes) && Enumerates(order, |out|) && 0 < |out|
  {
    var k := order[i % |out|];
    out[k] < sizes[k]
  }

  lemma NextOpenSlot(out: seq<nat>, sizes: seq<nat>, order: seq<nat>, i: nat) returns (d: nat)
    requires Within(out, sizes) && Enumerates(order, |out|) && HasRoom(out, sizes) && 0 < |out|
    ensures d < |out| && SlotOpen(out, sizes, order, i + d)
  {
    var k :| 0 <= k < |out| && out[k] < sizes[k];
    assert k in order;
    var j :| 0 <= j < |order| && order[j] == k;
    d := CyclicDistance(i, j, |out|);
  }

  /** The first `remaining` entries of the order can each take one unit. */
  ghost predicate OnePassSuffices(start: seq<nat>, sizes: seq<nat>, order: seq<nat>, remaining: nat)
    requires Within(start, sizes) && Enumerates(order, |start|)
  {
    && remaining <= |order| && Distinct(order)
    && forall j :: 0 <= j < remaining ==> start[order[j]] < sizes[order[j]]
  }

  ghost predicate OnePass(start: seq<nat>, out: seq<nat>, order: seq<nat>, i: nat)
    requires |out| == |start| && Enumerates(order, |start|)
  {
    forall j :: 0 <= j < |order| ==> out[order[j]] == start[order[j]] + if j < i then 1 else 0
  }

  /** As long as one pass suffices, the loop has served the first i entries and nobody else. */
  ghost predicate InPass(
    start: seq<nat>, out: seq<nat>, sizes: seq<nat>, order: seq<nat>, total: nat, left: int, i: nat)
    requires Within(start, sizes) && Enumerates(order, |start|) && |out| == |start|
  {
    OnePassSuffices(start, sizes, order, total) ==> i == total - left && OnePass(start, out, order, i)
  }

  lemma PassHasRoom(start: seq<nat>, out: seq<nat>, sizes: seq<nat>, order: seq<nat>, total: nat, left: int, i: nat)
    requires Within(start, sizes) && Enumerates(order, |start|) && |out| == |start|
    requires InPass(start, out, sizes, order, total, left, i) && left > 0
    requires OnePassSuffices(start, sizes, order, total)
    ensures i < |order| && i % |order| == i && out[order[i]] < sizes[order[i]]
  {
    QuotientUnique(i, |order|, 0, i);
  }

  lemma PassTakes(start: seq<nat>, out: seq<nat>, sizes: seq<nat>, order: seq<nat>, total: nat, left: int, i: nat)
    requires Within(start, sizes) && Enumerates(order, |start|) && |out| == |start| > 0
    requires InPass(start, out, sizes, order, total, left, i) && left > 0
    ensures var k := order[i % |order|];
            InPass(start, out[k := out[k] + 1], sizes, order, total, left - 1, i + 1)
  {
    if OnePassSuffices(start, sizes, order, total) {
      PassHasRoom(start, out, sizes, order, total, left, i);
    }
  }

  /** Hands out one unit at a time around the order, skipping full repositories, until nothing is
      left or nobody has room. It terminates from every start and loses no unit. */
  method FillCyclic(start: seq<nat>, sizes: seq<nat>, order: seq<nat>, remaining: nat) returns (out: seq<nat>)
    requires Within(start, sizes) && Enumerates(order, |start|)
    ensures Within(out, sizes) && Within(start, out)
    ensures Total(out) == Total(start) + Min(remaining, Total(sizes) - Total(start))
    ensures OnePassSuffices(start, sizes, order, remaining) ==> OnePass(start, out, order, remaining)
  {
    out := start;
    var left: int, i: nat := remaining, 0;
    ghost var d: nat := 0;
    if HasRoom(out, sizes) {
      d := NextOpenSlot(out, sizes, order, i);
    }
    while left > 0 && HasRoom(out, sizes)
      invariant 0 <= left <= remaining && Within(out, sizes) && Within(start, out)
      invariant Total(out) == Total(start) + (remaining - left)
      invariant HasRoom(out, sizes) ==> SlotOpen(out, sizes, order, i + d)
      invariant InPass(start, out, sizes, order, remaining, left, i)
      decreases left, d
    {
      var k := order[i % |order|];
      if out[k] < sizes[k] {
        PassTakes(start, out, sizes, order, remaining, left, i);
        TotalBump(out, k);
        out := out[k := out[k] + 1];
        left := left - 1;
        i := i + 1;
        if HasRoom(out, sizes) {
          d := NextOpenSlot(out, sizes, order, i);
        }
      } else {
        if OnePassSuffices(start, sizes, order, remaining) {
          PassHasRoom(start, out, sizes, order, remaining, left, i);
        }
        i := i + 1;
        d := d - 1;
      }
    }
    TotalStrict(out, sizes);
    TotalStrict(start, sizes);
    if left > 0 && OnePassSuffices(start, sizes, order, remaining) {
      PassHasRoom(start, out, sizes, order, remaining, left, i);
    }
  }

  // ------------------------------------------------------- the quotas

  function Floor(total: nat, sizes: seq<nat>, k: nat): nat
    requires k < |sizes| && Total(sizes) > 0
  {
    total * sizes[k] / Total(sizes)
  }

  /** The fractional part of a share, as a numerator over the pool. */
  function Fraction(total: nat, sizes: seq<nat>, k: nat): nat
    requires k < |sizes| && Total(sizes) > 0
  {
    total * sizes[k] % Total(sizes)
  }

  function Fractions(total: nat, sizes: seq<nat>): seq<nat>
    requires Total(sizes) > 0
  {
    seq(|sizes|, k requires 0 <= k < |sizes| => Fraction(total, sizes, k))
  }

  function FractionAt(fractions: seq<nat>): nat -> int
  {
    (k: nat) => if k < |fractions| then fractions[k] else 0
  }

  /** Larger fraction first, then the earlier repository. */
  function Precedes(fractions: seq<nat>): (nat, nat) -> bool
  {
    (a: nat, b: nat) =>
      FractionAt(fractions)(a) > FractionAt(fractions)(b)
      || (FractionAt(fractions)(a) == FractionAt(fractions)(b) && a <= b)
  }

  lemma PrecedesIsOrder(fractions: seq<nat>)
    ensures TotalPreorder(Precedes(fractions))
  {
  }

  function RemainderOrder(fractions: seq<nat>): seq<nat>
  {
    Sort(Below(|fractions|), Precedes(fractions))
  }

  lemma {:induction false} BelowMultiset(n: nat, k: nat)
    ensures multiset(Below(n))[k] == if k < n then 1 else 0
  {
    if n > 0 {
      BelowMultiset(n - 1, k);
      assert Below(n) == Below(n - 1) + [n - 1];
    }
  }

  lemma RemainderOrderEnumerates(fractions: seq<nat>)
    ensures Enumerates(RemainderOrder(fractions), |fractions|)
    ensures Distinct(RemainderOrder(fractions))
    ensures Sorted(RemainderOrder(fractions), Precedes(fractions))
    ensures multiset(RemainderOrder(fractions)) == multiset(Below(|fractions|))
  {
    var order, n := RemainderOrder(fractions), |fractions|;
    PrecedesIsOrder(fractions);
    SortSorts(Below(n), Precedes(fractions));
    forall k: nat ensures multiset(order)[k] == if k < n then 1 else 0 {
      BelowMultiset(n, k);
    }
    CountsDistinct(order);
    forall j | 0 <= j < n ensures order[j] < n {
      assert order[j] in multiset(order);
    }
    forall k | 0 <= k < n ensures k in order {
      assert k in multiset(order);
    }
  }

  function FloorAt(total: nat, sizes: seq<nat>): nat -> int
    requires Total(sizes) > 0
  {
    (k: nat) => if k < |sizes| then Floor(total, sizes, k) else 0
  }

  lemma ShareSplits(total: nat, size: nat, pool: nat)
    requires pool > 0
    ensures total * size == pool * (total * size / pool) + total * size % pool
  {
  }

  lemma AddShare(total: int, a: int, b: int, pool: int, q: int, q': int, r: int, r': int)
    requires total * a == pool * q + r && total * b == pool * q' + r'
    ensures total * (a + b) == pool * (q + q') + (r + r')
  {
  }

  function FloorsBefore(total: nat, sizes: seq<nat>, k: nat): int
    requires Total(sizes) > 0
  {
    Sum(Below(k), FloorAt(total, sizes))
  }

  function FractionsBefore(total: nat, sizes: seq<nat>, k: nat): int
    requires Total(sizes) > 0
  {
    Sum(Below(k), FractionAt(Fractions(total, sizes)))
  }

  lemma BeforeNext(total: nat, sizes: seq<nat>, k: nat)
    requires k < |sizes| && Total(sizes) > 0
    ensures Sum(sizes[..k + 1], Value) == Sum(sizes[..k], Value) + sizes[k]
    ensures FloorsBefore(total, sizes, k + 1) == FloorsBefore(total, sizes, k) + Floor(total, sizes, k)
    ensures FractionsBefore(total, sizes, k + 1) == FractionsBefore(total, sizes, k) + Fraction(total, sizes, k)
  {
    assert sizes[..k + 1] == sizes[..k] + [sizes[k]] && Below(k + 1) == Below(k) + [k];
    SumAppend(sizes[..k], sizes[k], Value);
    SumAppend(Below(k), k, FloorAt(total, sizes));
    SumAppend(Below(k), k, FractionAt(Fractions(total, sizes)));
  }

  /** Floors and fractions of the shares of the first `part` repositories add up. */
  lemma {:induction false} SharesAddUp(total: nat, sizes: seq<nat>, part: nat)
    requires part <= |sizes| && Total(sizes) > 0
    ensures total * Sum(sizes[..part], Value)
         == Total(sizes) * FloorsBefore(total, sizes, part) + FractionsBefore(total, sizes, part)
  {
    if part > 0 {
      var k: nat := part - 1;
      SharesAddUp(total, sizes, k);
      BeforeNext(total, sizes, k);
      ShareSplits(total, sizes[k], Total(sizes));
      AddShare(total, Sum(sizes[..k], Value), sizes[k], Total(sizes),
               FloorsBefore(total, sizes, k), Floor(total, sizes, k),
               FractionsBefore(total, sizes, k), Fraction(total, sizes, k));
    }
  }

  function StartOf(total: nat, sizes: seq<nat>): seq<nat>
    requires Total(sizes) > 0
  {
    seq(|sizes|, k requires 0 <= k < |sizes| =>
      if Floor(total, sizes, k) <= sizes[k] then Floor(total, sizes, k) else sizes[k])
  }

  lemma {:induction false} StartTotal(total: nat, sizes: seq<nat>, part: nat)
    requires part <= |sizes| && Total(sizes) > 0
    requires forall k :: 0 <= k < |sizes| ==> Floor(total, sizes, k) <= sizes[k]
    ensures Sum(StartOf(total, sizes)[..part], Value) == Sum(Below(part), FloorAt(total, sizes))
  {
    if part > 0 {
      var start := StartOf(total, sizes);
      StartTotal(total, sizes, part - 1);
      assert start[..part] == start[..part - 1] + [start[part - 1]];
      assert Below(part) == Below(part - 1) + [part - 1];
      SumAppend(start[..part - 1], start[part - 1], Value);
      SumAppend<nat>(Below(part - 1), part - 1, FloorAt(total, sizes));
    }
  }

  /** With total <= pool no share exceeds its repository, and a share with a fraction lies strictly
      below it. */
  lemma ShareFits(total: nat, sizes: seq<nat>, k: nat)
    requires k < |sizes| && 0 < Total(sizes) && total <= Total(sizes)
    ensures Floor(total, sizes, k) <= sizes[k]
    ensures Fraction(total, sizes, k) > 0 ==> Floor(total, sizes, k) < sizes[k]
  {
    QuotientBelow(total, sizes[k], Total(sizes));
  }

  lemma QuotientBelow(a: nat, size: nat, pool: nat)
    requires 0 < pool && a <= pool
    ensures a * size / pool <= size
    ensures a * size % pool > 0 ==> a * size / pool < size
  {
    var q, r := a * size / pool, a * size % pool;
    assert a * size <= pool * size;
    assert pool * (size - q) >= r;
  }

  lemma FactorBelow(pool: int, x: int, y: int)
    requires pool > 0 && pool * x < pool * y
    ensures x < y
  {
    assert pool * (y - x) > 0;
  }

  lemma ProductAtMost(size: int, x: int, y: int)
    requires x <= y && size >= 0
    ensures x * size <= y * size
  {
    assert (y - x) * size >= 0;
  }

  lemma QuotientAtLeast(a: nat, size: nat, pool: nat)
    requires 0 < pool <= a
    ensures a * size / pool >= size
  {
    var product: nat := a * size;
    ProductAtMost(size, pool, a);
    assert product < pool * (product / pool + 1);
    FactorBelow(pool, size, product / pool + 1);
  }

  lemma NoFractionsBehind(f: seq<nat>, order: seq<nat>, j: nat)
    requires j < |order| && Sorted(order, Precedes(f)) && FractionAt(f)(order[j]) == 0
    ensures Sum(order[j..], FractionAt(f)) == 0
  {
    forall k | k in order[j..] ensures 0 <= FractionAt(f)(k) <= 0 {
      var i :| j <= i < |order| && order[i] == k;
      assert j < i ==> Precedes(f)(order[j], order[i]);
    }
    SumAtMost(order[j..], FractionAt(f), 0);
  }

  lemma FractionsBounded(f: seq<nat>, ks: seq<nat>, pool: nat)
    requires forall k :: 0 <= k < |f| ==> f[k] <= pool
    ensures Sum(ks, FractionAt(f)) <= |ks| * pool
  {
    SumAtMost(ks, FractionAt(f), pool);
  }

  /** The left-over units never reach an entry of the order without a fraction. */
  lemma LeftoverReachesOnlyFractions(pool: nat, f: seq<nat>, order: seq<nat>, remaining: nat, j: nat)
    requires 0 < pool && j <= |f| == |order|
    requires forall k :: 0 <= k < |f| ==> f[k] <= pool
    requires multiset(order) == multiset(Below(|f|)) && Sorted(order, Precedes(f))
    requires pool * remaining == Sum(Below(|f|), FractionAt(f))
    requires j < |f| ==> FractionAt(f)(order[j]) == 0
    ensures remaining <= j
  {
    SumPermutation(Below(|f|), order, FractionAt(f));
    SumConcat(order[..j], order[j..], FractionAt(f));
    assert order == order[..j] + order[j..];
    FractionsBounded(f, order[..j], pool);
    if j < |f| {
      NoFractionsBehind(f, order, j);
    } else {
      assert order[j..] == [];
    }
    CancelPool(pool, remaining, j);
  }

  lemma CancelPool(pool: nat, a: nat, b: nat)
    requires 0 < pool && pool * a <= b * pool
    ensures a <= b
  {
    assert pool * (b - a) >= 0;
  }

  lemma StartIsFloors(total: nat, sizes: seq<nat>)
    requires 0 < Total(sizes) && total <= Total(sizes)
    ensures forall k :: 0 <= k < |sizes| ==> StartOf(total, sizes)[k] == Floor(total, sizes, k)
    ensures Total(StartOf(total, sizes)) <= total
    ensures Total(sizes) * (total - Total(StartOf(total, sizes)))
         == Sum(Below(|sizes|), FractionAt(Fractions(total, sizes)))
  {
    var start, n, pool := StartOf(total, sizes), |sizes|, Total(sizes);
    forall k | 0 <= k < n ensures Floor(total, sizes, k) <= sizes[k] {
      ShareFits(total, sizes, k);
    }
    StartTotal(total, sizes, n);
    SharesAddUp(total, sizes, n);
    assert sizes[..n] == sizes && start[..n] == start;
    SumNonNegative(Below(n), FractionAt(Fractions(total, sizes)));
    SubtractScaled(total, pool, Total(start), Sum(Below(n), FractionAt(Fractions(total, sizes))));
  }

  lemma SubtractScaled(total: nat, pool: nat, whole: nat, rest: nat)
    requires 0 < pool && total * pool == pool * whole + rest
    ensures whole <= total && pool * (total - whole) == rest
  {
    assert pool * (total - whole) == rest;
  }

  lemma StartSaturates(total: nat, sizes: seq<nat>)
    requires 0 < Total(sizes) < total
    ensures StartOf(total, sizes) == sizes
  {
    forall k | 0 <= k < |sizes| ensures StartOf(total, sizes)[k] == sizes[k] {
      QuotientAtLeast(total, sizes[k], Total(sizes));
    }
  }

  lemma LeftoverFitsOnePass(total: nat, sizes: seq<nat>)
    requires 0 < Total(sizes) && total <= Total(sizes)
    ensures Within(StartOf(total, sizes), sizes)
    ensures Enumerates(RemainderOrder(Fractions(total, sizes)), |sizes|)
    ensures Total(StartOf(total, sizes)) <= total
    ensures OnePassSuffices(StartOf(total, sizes), sizes, RemainderOrder(Fractions(total, sizes)),
                            total - Total(StartOf(total, sizes)))
  {
    var start, f := StartOf(total, sizes), Fractions(total, sizes);
    var order := RemainderOrder(f);
    StartIsFloors(total, sizes);
    RemainderOrderEnumerates(f);
    var remaining := total - Total(start);
    LeftoverReachesOnlyFractions(Total(sizes), f, order, remaining, |sizes|);
    forall j | 0 <= j < remaining ensures start[order[j]] < sizes[order[j]] {
      if FractionAt(f)(order[j]) == 0 {
        LeftoverReachesOnlyFractions(Total(sizes), f, order, remaining, j);
      }
      ShareFits(total, sizes, order[j]);
    }
  }

  /** Quota k is its share rounded down or, only if the share has a fraction, up. */
  ghost predicate FloorOrCeiling(out: seq<nat>, total: nat, sizes: seq<nat>)
    requires |out| == |sizes| && Total(sizes) > 0
  {
    forall k :: 0 <= k < |sizes| ==>
      || out[k] == Floor(total, sizes, k)
      || (out[k] == Floor(total, sizes, k) + 1 && Fraction(total, sizes, k) > 0)
  }

  /** A repository rounded up precedes every repository rounded down. */
  ghost predicate LargestFractionsFirst(out: seq<nat>, total: nat, sizes: seq<nat>)
    requires |out| == |sizes| && Total(sizes) > 0
  {
    forall a, b | 0 <= a < |sizes| && 0 <= b < |sizes|
                  && out[a] > Floor(total, sizes, a) && out[b] == Floor(total, sizes, b) ::
      || Fraction(total, sizes, a) > Fraction(total, sizes, b)
      || (Fraction(total, sizes, a) == Fraction(total, sizes, b) && a < b)
  }

  /** What largest-remainder apportionment under caps has to deliver. */
  ghost predicate Apportions(out: seq<nat>, total: nat, sizes: seq<nat>)
  {
    && Within(out, sizes)
    && Total(out) == Min(total, Total(sizes))
    && (0 < Total(sizes) && total <= Total(sizes) ==>
          FloorOrCeiling(out, total, sizes) && LargestFractionsFirst(out, total, sizes))
  }

  method LargestRemainder(total: nat, sizes: seq<nat>) returns (out: seq<nat>)
    ensures Apportions(out, total, sizes)
  {
    var pool := Total(sizes);
    if pool == 0 {
      out := seq(|sizes|, k => 0);
      SumAtMost(out, Value, 0);
      return;
    }
    var start := StartOf(total, sizes);
    var order := RemainderOrder(Fractions(total, sizes));
    RemainderOrderEnumerates(Fractions(total, sizes));
    if total <= pool {
      StartIsFloors(total, sizes);
      LeftoverFitsOnePass(total, sizes);
    } else {
      StartSaturates(total, sizes);
    }
    out := FillCyclic(start, sizes, order, total - Total(start));
    if total <= pool {
      OnePassIsApportionment(total, sizes, out);
    }
  }

  lemma OnePassIsApportionment(total: nat, sizes: seq<nat>, out: seq<nat>)
    requires 0 < Total(sizes) && total <= Total(sizes) && |out| == |sizes|
    requires Enumerates(RemainderOrder(Fractions(total, sizes)), |sizes|)
    requires Total(StartOf(total, sizes)) <= total
    requires OnePass(StartOf(total, sizes), out, RemainderOrder(Fractions(total, sizes)),
                     total - Total(StartOf(total, sizes)))
    ensures FloorOrCeiling(out, total, sizes) && LargestFractionsFirst(out, total, sizes)
  {
    var start, f := StartOf(total, sizes), Fractions(total, sizes);
    var order, remaining := RemainderOrder(f), total - Total(start);
    StartIsFloors(total, sizes);
    RemainderOrderEnumerates(f);
    forall k | 0 <= k < |sizes|
      ensures out[k] == Floor(total, sizes, k)
              || (out[k] == Floor(total, sizes, k) + 1 && Fraction(total, sizes, k) > 0)
    {
      assert k in order;
      var j :| 0 <= j < |order| && order[j] == k;
      if Fraction(total, sizes, k) == 0 {
        LeftoverReachesOnlyFractions(Total(sizes), f, order, remaining, j);
      }
    }
    forall a, b | 0 <= a < |sizes| && 0 <= b < |sizes|
                  && out[a] > Floor(total, sizes, a) && out[b] == Floor(total, sizes, b)
      ensures Fraction(total, sizes, a) > Fraction(total, sizes, b)
              || (Fraction(total, sizes, a) == Fraction(total, sizes, b) && a < b)
    {
      assert a in order && b in order;
      var i :| 0 <= i < |order| && order[i] == a;
      var j :| 0 <= j < |order| && order[j] == b;
      assert Precedes(f)(order[i], order[j]);
    }
  }

  lemma {:induction false} EqualTotals(xs: seq<nat>, ys: seq<nat>)
    requires Within(xs, ys)
    ensures Total(xs) <= Total(ys)
    ensures Total(xs) == Total(ys) ==> xs == ys
  {
    if xs != [] {
      var n := |xs| - 1;
      EqualTotals(xs[..n], ys[..n]);
      assert xs == xs[..n] + [xs[n]] && ys == ys[..n] + [ys[n]];
    }
  }

  /** Two apportionments of the same total never trade a unit: the one that rounds k up when the
      other does not would rank k both before and after some repository. */
  lemma NoTrade(out: seq<nat>, other: seq<nat>, total: nat, sizes: seq<nat>)
    requires Apportions(out, total, sizes) && Apportions(other, total, sizes)
    requires 0 < Total(sizes) && total <= Total(sizes)
    requires exists k :: 0 <= k < |sizes| && other[k] < out[k]
    ensures Within(other, out)
  {
    var k :| 0 <= k < |sizes| && other[k] < out[k];
    assert out[k] > Floor(total, sizes, k) && other[k] == Floor(total, sizes, k);
  }

  /** The specification leaves no choice: sizes and total determine the quotas. */
  lemma ApportionmentUnique(out: seq<nat>, other: seq<nat>, total: nat, sizes: seq<nat>)
    requires Apportions(out, total, sizes) && Apportions(other, total, sizes)
    ensures out == other
  {
    if total >= Total(sizes) {
      EqualTotals(out, sizes);
      EqualTotals(other, sizes);
    } else if exists k :: 0 <= k < |sizes| && other[k] < out[k] {
      NoTrade(out, other, total, sizes);
      EqualTotals(other, out);
    } else {
      EqualTotals(out, other);
    }
  }
}
