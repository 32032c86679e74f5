/** What changed rows do to a whole coding grade: its correctness part is monotone, its cost part is
    not, and the pairs that start or stop being solved decide. */
module GateChanges {
  import opened Sequences
  import opened Binomial
  import opened CodingGate

  // ------------------------------------------------------ changed pairs

  function Price(p: Pair, candidate: bool): real { if candidate then p.cand.cost else p.base.cost }

  predicate NewlySolved(p: Pair, q: Pair) { Solved(p) == 0 && Solved(q) == 1 }

  function GainedCount(p: seq<Pair>, q: seq<Pair>): nat
    requires |p| == |q|
  {
    if p == [] then 0
    else
      var n := |p| - 1;
      GainedCount(p[..n], q[..n]) + if NewlySolved(p[n], q[n]) then 1 else 0
  }

  /** What the pairs solved only in q cost there. Read the other way round it is what the pairs solved
      only in p cost in p. */
  function GainedCost(p: seq<Pair>, q: seq<Pair>, candidate: bool): real
    requires |p| == |q|
  {
    if p == [] then 0.0
    else
      var n := |p| - 1;
      GainedCost(p[..n], q[..n], candidate) + if NewlySolved(p[n], q[n]) then Price(q[n], candidate) else 0.0
  }

  /** A pair solved before and after costs the same. */
  ghost predicate PricesKept(p: seq<Pair>, q: seq<Pair>)
  {
    && |p| == |q|
    && forall i :: 0 <= i < |p| && Solved(p[i]) == Solved(q[i]) == 1 ==>
         p[i].base.cost == q[i].base.cost && p[i].cand.cost == q[i].cand.cost
  }

  lemma {:induction false} SolvedShifts(p: seq<Pair>, q: seq<Pair>, candidate: bool)
    requires PricesKept(p, q)
    ensures Sum(q, Solved) == Sum(p, Solved) + GainedCount(p, q) - GainedCount(q, p)
    ensures SolvedCost(q, candidate)
      == SolvedCost(p, candidate) + GainedCost(p, q, candidate) - GainedCost(q, p, candidate)
  {
    if p != [] {
      var n := |p| - 1;
      SolvedShifts(p[..n], q[..n], candidate);
    }
  }

  lemma {:induction false} NothingGained(p: seq<Pair>, q: seq<Pair>, candidate: bool)
    requires |p| == |q| && forall i :: 0 <= i < |p| ==> !NewlySolved(p[i], q[i])
    ensures GainedCount(p, q) == 0 && GainedCost(p, q, candidate) == 0.0
  {
    if p != [] {
      NothingGained(p[..|p| - 1], q[..|q| - 1], candidate);
    }
  }

  // -------------------------------------------------------- changed rows

  /** The candidate's row may only become correct and the baseline's only incorrect, and a row that is
      correct before and after costs the same. */
  ghost predicate Improves(r: Row, s: Row)
  {
    FavoursCandidate(r, s) && (r.correct && s.correct ==> r.cost == s.cost)
  }

  ghost predicate RowsImprove(rows: seq<Row>, better: seq<Row>)
  {
    |rows| == |better| && forall i :: 0 <= i < |rows| ==> Improves(rows[i], better[i])
  }

  /** Rows of one arm do not change at all. */
  ghost predicate ArmStays(arm: Arm, rows: seq<Row>, better: seq<Row>)
  {
    |rows| == |better| && forall i :: 0 <= i < |rows| && rows[i].arm == arm ==> better[i] == rows[i]
  }

  ghost function StaysIn(arm: Arm): (Row, Row) -> bool { (r: Row, s: Row) => r.arm == arm ==> s == r }

  function Pairs(rows: seq<Row>, tasks: seq<string>): seq<Pair> { PairsOf(ByKey(rows), tasks) }

  lemma ImprovedPairs(rows: seq<Row>, better: seq<Row>, tasks: seq<string>)
    requires RowsImprove(rows, better)
    ensures var p, q := Pairs(rows, tasks), Pairs(better, tasks);
            PairsFavourCandidate(p, q) && PricesKept(p, q)
  {
    PairsRelated(rows, better, tasks, Improves);
    var p, q := Pairs(rows, tasks), Pairs(better, tasks);
    forall i | 0 <= i < |p|
      ensures PairFavours(p[i], q[i]) && Improves(p[i].base, q[i].base) && Improves(p[i].cand, q[i].cand)
    {
      assert PairRelated(p[i], q[i], Improves);
    }
  }

  lemma NoneDropped(rows: seq<Row>, better: seq<Row>, tasks: seq<string>)
    requires RowsImprove(rows, better) && ArmStays(Explorer, rows, better)
    ensures var p, q := Pairs(rows, tasks), Pairs(better, tasks);
            |p| == |q| && forall i :: 0 <= i < |p| ==> !NewlySolved(q[i], p[i])
  {
    ImprovedPairs(rows, better, tasks);
    PairsRelated(rows, better, tasks, StaysIn(Explorer));
    var p, q := Pairs(rows, tasks), Pairs(better, tasks);
    forall i | 0 <= i < |p| ensures !NewlySolved(q[i], p[i]) {
      assert PairRelated(p[i], q[i], StaysIn(Explorer)) && PairFavours(p[i], q[i]);
    }
  }

  lemma NoneGained(rows: seq<Row>, better: seq<Row>, tasks: seq<string>)
    requires RowsImprove(rows, better) && ArmStays(Greppy, rows, better)
    ensures var p, q := Pairs(rows, tasks), Pairs(better, tasks);
            |p| == |q| && forall i :: 0 <= i < |p| ==> !NewlySolved(p[i], q[i])
  {
    ImprovedPairs(rows, better, tasks);
    PairsRelated(rows, better, tasks, StaysIn(Greppy));
    var p, q := Pairs(rows, tasks), Pairs(better, tasks);
    forall i | 0 <= i < |p| ensures !NewlySolved(p[i], q[i]) {
      assert PairRelated(p[i], q[i], StaysIn(Greppy)) && PairFavours(p[i], q[i]);
    }
  }

  // ------------------------------------------------------ the whole grade

  lemma PassedIs(pairs: seq<Pair>, expected: nat)
    ensures var g := GradeOf(pairs, expected);
      g.passed <==> g.complete && g.pairs >= MIN_COMPLETE_PAIRS && g.solved >= MIN_SOLVED_PAIRS
                    && g.observedNotLower && g.noSignificantRegression && g.efficient
  {
    CountsNonNegative(pairs);
  }

  /** The old number of solved pairs and the old totals, corrected by the pairs that start and stop
      being solved, are still enough and no dearer. */
  predicate ChangesAffordable(p: seq<Pair>, q: seq<Pair>, expected: nat)
    requires |p| == |q|
  {
    && GradeOf(p, expected).solved + GainedCount(p, q) - GainedCount(q, p) >= MIN_SOLVED_PAIRS
    && NoDearer(SolvedCost(p, false) + GainedCost(p, q, false) - GainedCost(q, p, false),
                SolvedCost(p, true) + GainedCost(p, q, true) - GainedCost(q, p, true))
  }

  lemma {:induction false} PairsKeptIff(p: seq<Pair>, q: seq<Pair>, expected: nat)
    requires PairsFavourCandidate(p, q) && PricesKept(p, q) && GradeOf(p, expected).passed
    ensures GradeOf(q, expected).passed <==> ChangesAffordable(p, q, expected)
  {
    BetterPairsKeepPassing(p, q, expected);
    PassedIs(p, expected);
    PassedIs(q, expected);
    SolvedShifts(p, q, false);
    SolvedShifts(p, q, true);
    CountsNonNegative(p);
    CountsNonNegative(q);
  }

  /** The correctness checks are monotone but the whole grade is not, since the set of solved pairs
      changes. After rows improve, a gate that passed still passes exactly when the changes are
      affordable. */
  lemma {:induction false} PassingKeptIff(rows: seq<Row>, better: seq<Row>, tasks: seq<string>)
    requires RowsImprove(rows, better) && GradeOf(Pairs(rows, tasks), |tasks|).passed
    ensures |Pairs(rows, tasks)| == |Pairs(better, tasks)|
    ensures GradeOf(Pairs(better, tasks), |tasks|).passed
       <==> ChangesAffordable(Pairs(rows, tasks), Pairs(better, tasks), |tasks|)
  {
    ImprovedPairs(rows, better, tasks);
    PairsKeptIff(Pairs(rows, tasks), Pairs(better, tasks), |tasks|);
  }

  /** If the baseline's rows stay, no pair stops being solved, and the gate is kept exactly when the old
      totals with the newly solved pairs added are still no dearer. */
  lemma {:induction false} KeptIffBaselineStays(rows: seq<Row>, better: seq<Row>, tasks: seq<string>)
    requires RowsImprove(rows, better) && ArmStays(Explorer, rows, better)
    requires GradeOf(Pairs(rows, tasks), |tasks|).passed
    ensures |Pairs(rows, tasks)| == |Pairs(better, tasks)|
    ensures GradeOf(Pairs(better, tasks), |tasks|).solved >= GradeOf(Pairs(rows, tasks), |tasks|).solved
    ensures var p, q := Pairs(rows, tasks), Pairs(better, tasks);
            GradeOf(q, |tasks|).passed <==>
              NoDearer(SolvedCost(p, false) + GainedCost(p, q, false), SolvedCost(p, true) + GainedCost(p, q, true))
  {
    var p, q := Pairs(rows, tasks), Pairs(better, tasks);
    PassingKeptIff(rows, better, tasks);
    ImprovedPairs(rows, better, tasks);
    NoneDropped(rows, better, tasks);
    NothingGained(q, p, false);
    NothingGained(q, p, true);
    SolvedShifts(p, q, true);
    PassedIs(p, |tasks|);
    SolvedIs(p, |tasks|);
    SolvedIs(q, |tasks|);
  }

  lemma SolvedIs(pairs: seq<Pair>, expected: nat)
    ensures GradeOf(pairs, expected).solved == Sum(pairs, Solved)
  {
    CountsNonNegative(pairs);
  }

  /** If the candidate's rows stay, pairs can only stop being solved, because their baseline dropped
      out, and the gate is kept exactly when enough are left and their totals are no dearer. */
  lemma {:induction false} KeptIffCandidateStays(rows: seq<Row>, better: seq<Row>, tasks: seq<string>)
    requires RowsImprove(rows, better) && ArmStays(Greppy, rows, better)
    requires GradeOf(Pairs(rows, tasks), |tasks|).passed
    ensures |Pairs(rows, tasks)| == |Pairs(better, tasks)|
    ensures var p, q := Pairs(rows, tasks), Pairs(better, tasks);
            GradeOf(q, |tasks|).passed <==>
              && GradeOf(p, |tasks|).solved - GainedCount(q, p) >= MIN_SOLVED_PAIRS
              && NoDearer(SolvedCost(p, false) - GainedCost(q, p, false), SolvedCost(p, true) - GainedCost(q, p, true))
  {
    var p, q := Pairs(rows, tasks), Pairs(better, tasks);
    PassingKeptIff(rows, better, tasks);
    NoneGained(rows, better, tasks);
    NothingGained(p, q, false);
    NothingGained(p, q, true);
  }

  // ------------------------------------------- pairs as rows and back

  /** Two valid rows of one task, the baseline's and the candidate's. */
  predicate PairOk(p: Pair)
  {
    p.base.task == p.cand.task && p.base.arm == Explorer && p.cand.arm == Greppy && p.base.valid && p.cand.valid
  }

  function TasksOf(pairs: seq<Pair>): seq<string>
  {
    seq(|pairs|, i requires 0 <= i < |pairs| => pairs[i].base.task)
  }

  function RowAt(pairs: seq<Pair>, k: nat): Row
    requires k < 2 * |pairs|
  {
    if k % 2 == 0 then pairs[k / 2].base else pairs[k / 2].cand
  }

  function RowsOf(pairs: seq<Pair>): seq<Row>
  {
    seq(2 * |pairs|, k requires 0 <= k < 2 * |pairs| => RowAt(pairs, k))
  }

  lemma RowsAppend(pairs: seq<Pair>, p: Pair)
    ensures RowsOf(pairs + [p]) == RowsOf(pairs) + [p.base] + [p.cand]
  {
    forall k | 0 <= k < 2 * |pairs| ensures RowAt(pairs + [p], k) == RowAt(pairs, k) {
    }
  }

  ghost predicate PairsOk(pairs: seq<Pair>)
  {
    (forall i :: 0 <= i < |pairs| ==> PairOk(pairs[i])) && Distinct(TasksOf(pairs))
  }

  lemma IndexAppend(pairs: seq<Pair>, p: Pair)
    ensures ByKey(RowsOf(pairs + [p])) == ByKey(RowsOf(pairs))[KeyOf(p.base) := p.base][KeyOf(p.cand) := p.cand]
  {
    RowsAppend(pairs, p);
    var rows := RowsOf(pairs);
    assert (rows + [p.base] + [p.cand])[..|rows| + 1] == rows + [p.base];
    assert (rows + [p.base])[..|rows|] == rows;
  }

  lemma {:induction false} PairIndexed(pairs: seq<Pair>, i: nat)
    requires PairsOk(pairs) && i < |pairs|
    ensures var m, task := ByKey(RowsOf(pairs)), pairs[i].base.task;
      HasPair(m, task) && m[(task, Explorer)] == pairs[i].base && m[(task, Greppy)] == pairs[i].cand
  {
    var n := |pairs| - 1;
    assert pairs == pairs[..n] + [pairs[n]];
    IndexAppend(pairs[..n], pairs[n]);
    assert PairOk(pairs[n]) && PairOk(pairs[i]);
    if i < n {
      assert TasksOf(pairs)[i] != TasksOf(pairs)[n];
      assert TasksOf(pairs[..n]) == TasksOf(pairs)[..n];
      PairIndexed(pairs[..n], i);
    }
  }

  lemma {:induction false} PairsFound(pairs: seq<Pair>, k: nat)
    requires PairsOk(pairs) && k <= |pairs|
    ensures PairsOf(ByKey(RowsOf(pairs)), TasksOf(pairs)[..k]) == pairs[..k]
  {
    if k > 0 {
      PairsFound(pairs, k - 1);
      PairIndexed(pairs, k - 1);
      assert TasksOf(pairs)[..k] == TasksOf(pairs)[..k - 1] + [TasksOf(pairs)[k - 1]];
      PairsAppend(ByKey(RowsOf(pairs)), TasksOf(pairs)[..k - 1], TasksOf(pairs)[k - 1]);
    }
  }

  /** Any pairs with distinct tasks are what the grading loop makes of some rows. */
  lemma PairsRoundTrip(pairs: seq<Pair>)
    requires PairsOk(pairs)
    ensures Pairs(RowsOf(pairs), TasksOf(pairs)) == pairs
  {
    PairsFound(pairs, |pairs|);
    assert TasksOf(pairs)[..|pairs|] == TasksOf(pairs) && pairs[..|pairs|] == pairs;
  }

  // ------------------------------------------- a better row that fails

  /** The k-th task: its name has k + 1 characters. */
  function TaskName(k: nat): string { if k == 0 then "t" else TaskName(k - 1) + "t" }

  lemma {:induction false} NameLength(k: nat)
    ensures |TaskName(k)| == k + 1
  {
    if k > 0 {
      NameLength(k - 1);
    }
  }

  function Judged(k: nat, base: bool, cand: bool, cost: real): Pair
  {
    Pair(Row(TaskName(k), Explorer, true, base, 1.0), Row(TaskName(k), Greppy, true, cand, cost))
  }

  /** n pairs solved by both arms at the same cost. */
  function Level(n: nat): seq<Pair>
  {
    if n == 0 then [] else Level(n - 1) + [Judged(n - 1, true, true, 1.0)]
  }

  lemma CountsAppend(pairs: seq<Pair>, p: Pair)
    ensures var more := pairs + [p];
      && Sum(more, BaselineOnly) == Sum(pairs, BaselineOnly) + BaselineOnly(p)
      && Sum(more, CandidateOnly) == Sum(pairs, CandidateOnly) + CandidateOnly(p)
      && Sum(more, Solved) == Sum(pairs, Solved) + Solved(p)
      && SolvedCost(more, true) == SolvedCost(pairs, true) + (if Solved(p) == 1 then p.cand.cost else 0.0)
      && SolvedCost(more, false) == SolvedCost(pairs, false) + (if Solved(p) == 1 then p.base.cost else 0.0)
  {
    SumAppend(pairs, p, BaselineOnly);
    SumAppend(pairs, p, CandidateOnly);
    SumAppend(pairs, p, Solved);
    assert (pairs + [p])[..|pairs|] == pairs;
  }

  lemma {:induction false} LevelCounts(n: nat)
    ensures |Level(n)| == n
    ensures forall i :: 0 <= i < n ==> Level(n)[i] == Judged(i, true, true, 1.0)
    ensures Sum(Level(n), BaselineOnly) == 0 && Sum(Level(n), CandidateOnly) == 0 && Sum(Level(n), Solved) == n
    ensures SolvedCost(Level(n), false) == SolvedCost(Level(n), true) == n as real
  {
    if n > 0 {
      LevelCounts(n - 1);
      CountsAppend(Level(n - 1), Judged(n - 1, true, true, 1.0));
    }
  }

  /** Twenty-eight level pairs, a pair only the candidate solves, and a pair the baseline solves and
      whose candidate, right or wrong, cost a hundred times as much. */
  function Thirty(last: bool): seq<Pair>
  {
    Level(28) + [Judged(28, false, true, 1.0)] + [Judged(29, true, last, 100.0)]
  }

  lemma ThirtyCounts(last: bool)
    ensures |Thirty(last)| == 30
    ensures Sum(Thirty(last), BaselineOnly) == (if last then 0 else 1) && Sum(Thirty(last), CandidateOnly) == 1
    ensures Sum(Thirty(last), Solved) == if last then 29 else 28
    ensures SolvedCost(Thirty(last), true) == if last then 128.0 else 28.0
    ensures SolvedCost(Thirty(last), false) == if last then 29.0 else 28.0
  {
    LevelCounts(28);
    CountsAppend(Level(28), Judged(28, false, true, 1.0));
    CountsAppend(Level(28) + [Judged(28, false, true, 1.0)], Judged(29, true, last, 100.0));
  }

  lemma ThirtyOk(last: bool)
    ensures PairsOk(Thirty(last)) && TasksOf(Thirty(last)) == seq(30, i requires 0 <= i => TaskName(i))
  {
    LevelCounts(28);
    var pairs := Thirty(last);
    forall i | 0 <= i < 30 ensures PairOk(pairs[i]) && pairs[i].base.task == TaskName(i) && |TaskName(i)| == i + 1 {
      NameLength(i);
      assert i < 28 ==> pairs[i] == Level(28)[i];
    }
  }

  lemma FailurePasses()
    ensures GradeOf(Thirty(false), 30).passed
  {
    ThirtyCounts(false);
    SameVerdict(1, 1, ALPHA);
  }

  lemma CostlySuccessFails()
    ensures !GradeOf(Thirty(true), 30).passed
  {
    ThirtyCounts(true);
  }

  /** The rows differ in verdicts only. */
  ghost predicate OnlyVerdicts(rows: seq<Row>, other: seq<Row>)
  {
    |rows| == |other| && forall i :: 0 <= i < |rows| ==> other[i] == rows[i].(correct := other[i].correct)
  }

  /** q is p with some candidates' failures judged successes. */
  ghost predicate OnlyWins(p: seq<Pair>, q: seq<Pair>)
  {
    && |p| == |q|
    && forall i :: 0 <= i < |p| ==>
         PairOk(p[i]) && q[i].base == p[i].base
         && q[i].cand == p[i].cand.(correct := q[i].cand.correct) && (p[i].cand.correct ==> q[i].cand.correct)
  }

  lemma RowsOfImprove(p: seq<Pair>, q: seq<Pair>)
    requires OnlyWins(p, q)
    ensures RowsImprove(RowsOf(p), RowsOf(q)) && ArmStays(Explorer, RowsOf(p), RowsOf(q))
    ensures OnlyVerdicts(RowsOf(p), RowsOf(q))
  {
    forall k | 0 <= k < 2 * |p|
      ensures Improves(RowAt(p, k), RowAt(q, k)) && (RowAt(p, k).arm == Explorer ==> RowAt(q, k) == RowAt(p, k))
      ensures RowAt(q, k) == RowAt(p, k).(correct := RowAt(q, k).correct)
    {
      assert PairOk(p[k / 2]);
    }
  }

  /** Sixty rows of thirty tasks that pass, and the same rows with one candidate failure judged a
      success, at the cost it always had, which do not. */
  lemma BetterRowCanFail() returns (rows: seq<Row>, better: seq<Row>, tasks: seq<string>)
    ensures Distinct(tasks) && RowsImprove(rows, better) && ArmStays(Explorer, rows, better)
      && OnlyVerdicts(rows, better)
    ensures GradeOf(Pairs(rows, tasks), |tasks|).passed && !GradeOf(Pairs(better, tasks), |tasks|).passed
  {
    var p, q := Thirty(false), Thirty(true);
    ThirtyOk(false);
    ThirtyOk(true);
    ThirtyCounts(false);
    ThirtyCounts(true);
    rows, better, tasks := RowsOf(p), RowsOf(q), TasksOf(p);
    PairsRoundTrip(p);
    PairsRoundTrip(q);
    FailurePasses();
    CostlySuccessFails();
    LevelCounts(28);
    RowsOfImprove(p, q);
  }
}
