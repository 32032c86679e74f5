/** The agent-coding gate: grading paired result rows. */
module CodingGate {
  import opened Sequences
  import opened Binomial

  const ALPHA: real := 0.05
  const MIN_COMPLETE_PAIRS: nat := 30
  const MIN_SOLVED_PAIRS: nat := 20

  datatype Arm = Explorer | Greppy

  type Key = (string, Arm)

  datatype Row = Row(task: string, arm: Arm, valid: bool, correct: bool, cost: real)

  function KeyOf(row: Row): Key { (row.task, row.arm) }

  datatype Pair = Pair(base: Row, cand: Row)

  /** The row index: a later row with the same key replaces an earlier one. */
  function ByKey(rows: seq<Row>): map<Key, Row>
  {
    if rows == [] then map[]
    else
      var last := rows[|rows| - 1];
      ByKey(rows[..|rows| - 1])[KeyOf(last) := last]
  }

  predicate HasPair(m: map<Key, Row>, task: string)
  {
    && (task, Explorer) in m && m[(task, Explorer)].valid
    && (task, Greppy) in m && m[(task, Greppy)].valid
  }

  function PairsOf(m: map<Key, Row>, tasks: seq<string>): (pairs: seq<Pair>)
    ensures |pairs| <= |tasks|
  {
    if tasks == [] then []
    else
      var task := tasks[|tasks| - 1];
      PairsOf(m, tasks[..|tasks| - 1])
      + if HasPair(m, task) then [Pair(m[(task, Explorer)], m[(task, Greppy)])] else []
  }

  function BaselineOnly(p: Pair): int { if p.base.correct && !p.cand.correct then 1 else 0 }
  function CandidateOnly(p: Pair): int { if p.cand.correct && !p.base.correct then 1 else 0 }
  function Solved(p: Pair): int { if p.base.correct && p.cand.correct then 1 else 0 }

  function SolvedCost(pairs: seq<Pair>, candidate: bool): real
  {
    if pairs == [] then 0.0
    else
      var p := pairs[|pairs| - 1];
      SolvedCost(pairs[..|pairs| - 1], candidate)
      + if Solved(p) == 0 then 0.0 else if candidate then p.cand.cost else p.base.cost
  }

  datatype Grade = Grade(
    complete: bool, pairs: nat, solved: nat, baselineOnly: nat, candidateOnly: nat,
    observedNotLower: bool, noSignificantRegression: bool, efficient: bool, passed: bool)

  lemma CountsNonNegative(pairs: seq<Pair>)
    ensures Sum(pairs, BaselineOnly) >= 0 && Sum(pairs, CandidateOnly) >= 0 && Sum(pairs, Solved) >= 0
  {
    SumNonNegative(pairs, BaselineOnly);
    SumNonNegative(pairs, CandidateOnly);
    SumNonNegative(pairs, Solved);
  }

  /** The cost ratio is rounded to six decimals before it is compared with 1, so a candidate up to
      half a millionth dearer still counts as no dearer. */
  predicate NoDearer(base: real, cand: real)
  {
    base > 0.0 && 2000000.0 * cand <= 2000001.0 * base
  }

  /** The verdicts drawn from the counts and costs. */
  function GradeFrom(pairs: nat, expected: nat, lost: nat, won: nat, solved: nat, baseCost: real, candCost: real): Grade
  {
    var complete := pairs == expected;
    var sampleOk := pairs >= MIN_COMPLETE_PAIRS && solved >= MIN_SOLVED_PAIRS;
    var notLower, noRegression := won >= lost, ExactRegressionP(lost, won) >= ALPHA;
    var efficient := NoDearer(baseCost, candCost);
    Grade(complete, pairs, solved, lost, won, notLower, noRegression, efficient,
          complete && sampleOk && notLower && noRegression && efficient)
  }

  function GradeOf(pairs: seq<Pair>, expected: nat): Grade
  {
    CountsNonNegative(pairs);
    GradeFrom(|pairs|, expected, Sum(pairs, BaselineOnly), Sum(pairs, CandidateOnly), Sum(pairs, Solved),
              SolvedCost(pairs, false), SolvedCost(pairs, true))
  }

  method IndexRows(rows: seq<Row>) returns (byKey: map<Key, Row>)
    ensures byKey == ByKey(rows)
  {
    byKey := map[];
    for i := 0 to |rows|
      invariant byKey == ByKey(rows[..i])
    {
      assert rows[..i + 1][..i] == rows[..i];
      byKey := byKey[KeyOf(rows[i]) := rows[i]];
    }
    assert rows[..|rows|] == rows;
  }

  /** The tasks without a complete pair. */
  function Unpaired(m: map<Key, Row>, tasks: seq<string>): seq<string>
  {
    if tasks == [] then []
    else
      var task := tasks[|tasks| - 1];
      Unpaired(m, tasks[..|tasks| - 1]) + if HasPair(m, task) then [] else [task]
  }

  lemma PairsAppend(m: map<Key, Row>, tasks: seq<string>, task: string)
    ensures HasPair(m, task) ==>
      && PairsOf(m, tasks + [task]) == PairsOf(m, tasks) + [Pair(m[(task, Explorer)], m[(task, Greppy)])]
      && Unpaired(m, tasks + [task]) == Unpaired(m, tasks)
    ensures !HasPair(m, task) ==>
      PairsOf(m, tasks + [task]) == PairsOf(m, tasks) && Unpaired(m, tasks + [task]) == Unpaired(m, tasks) + [task]
  {
    assert (tasks + [task])[..|tasks|] == tasks;
  }

  /** The complete pairs and the tasks that have none, both in task order. */
  method PairUp(byKey: map<Key, Row>, tasks: seq<string>) returns (pairs: seq<Pair>, invalid: seq<string>)
    ensures pairs == PairsOf(byKey, tasks) && invalid == Unpaired(byKey, tasks)
    ensures |pairs| + |invalid| == |tasks|
  {
    pairs, invalid := [], [];
    for i := 0 to |tasks|
      invariant pairs == PairsOf(byKey, tasks[..i]) && invalid == Unpaired(byKey, tasks[..i])
      invariant |pairs| + |invalid| == i
    {
      assert tasks[..i + 1] == tasks[..i] + [tasks[i]];
      PairsAppend(byKey, tasks[..i], tasks[i]);
      if HasPair(byKey, tasks[i]) {
        pairs := pairs + [Pair(byKey[(tasks[i], Explorer)], byKey[(tasks[i], Greppy)])];
      } else {
        invalid := invalid + [tasks[i]];
      }
    }
    assert tasks[..|tasks|] == tasks;
  }

  method CountPairs(pairs: seq<Pair>) returns (lost: int, won: int, solved: int, baseCost: real, candCost: real)
    ensures lost == Sum(pairs, BaselineOnly) && won == Sum(pairs, CandidateOnly) && solved == Sum(pairs, Solved)
    ensures baseCost == SolvedCost(pairs, false) && candCost == SolvedCost(pairs, true)
  {
    lost, won, solved, baseCost, candCost := 0, 0, 0, 0.0, 0.0;
    for i := 0 to |pairs|
      invariant lost == Sum(pairs[..i], BaselineOnly) && won == Sum(pairs[..i], CandidateOnly)
      invariant solved == Sum(pairs[..i], Solved)
      invariant baseCost == SolvedCost(pairs[..i], false) && candCost == SolvedCost(pairs[..i], true)
    {
      assert pairs[..i + 1][..i] == pairs[..i];
      var p := pairs[i];
      lost, won := lost + BaselineOnly(p), won + CandidateOnly(p);
      if p.base.correct && p.cand.correct {
        solved, baseCost, candCost := solved + 1, baseCost + p.base.cost, candCost + p.cand.cost;
      }
    }
    assert pairs[..|pairs|] == pairs;
  }

  method GradeResults(rows: seq<Row>, tasks: seq<string>) returns (g: Grade)
    ensures g == GradeOf(PairsOf(ByKey(rows), tasks), |tasks|)
  {
    var byKey := IndexRows(rows);
    var pairs, invalid := PairUp(byKey, tasks);
    var lost, won, solved, baseCost, candCost := CountPairs(pairs);
    CountsNonNegative(pairs);
    g := GradeFrom(|pairs|, |tasks|, lost, won, solved, baseCost, candCost);
  }

  // --------------------------------------------------- what passing means

  lemma {:induction false} CompleteIff(m: map<Key, Row>, tasks: seq<string>)
    ensures |PairsOf(m, tasks)| == |tasks| <==> forall task :: task in tasks ==> HasPair(m, task)
  {
    if tasks != [] {
      var n := |tasks| - 1;
      CompleteIff(m, tasks[..n]);
      assert tasks == tasks[..n] + [tasks[n]];
    }
  }

  /** Rounds to the nearest integer, ties to even. */
  function RoundEven(x: real): int
  {
    var below := x.Floor;
    var rest := x - below as real;
    if rest < 0.5 || (rest == 0.5 && below % 2 == 0) then below else below + 1
  }

  /** Comparing the cost ratio with 1 after rounding it to six decimals is `NoDearer`. */
  lemma NoDearerIsRoundedRatio(base: real, cand: real)
    requires base > 0.0
    ensures NoDearer(base, cand) <==> RoundEven(1000000.0 * (cand / base)) <= 1000000
  {
    var ratio := cand / base;
    assert cand == ratio * base;
    assert 2000000.0 * cand - 2000001.0 * base == (2000000.0 * ratio - 2000001.0) * base;
    RoundedAtMost(1000000.0 * ratio);
    if 2000000.0 * ratio <= 2000001.0 {
      assert (2000001.0 - 2000000.0 * ratio) * base >= 0.0;
    } else {
      assert (2000000.0 * ratio - 2000001.0) * base > 0.0;
    }
  }

  lemma RoundedAtMost(x: real)
    ensures RoundEven(x) <= 1000000 <==> x <= 1000000.5
  {
    var below := x.Floor;
    if below <= 999999 {
      assert x < (below + 1) as real;
    } else if below >= 1000001 {
      assert x >= 1000001.0;
    }
  }

  // ------------------------------------------------- order independence

  ghost predicate Consistent(rows: seq<Row>)
  {
    forall r, s :: r in rows && s in rows && KeyOf(r) == KeyOf(s) ==> r == s
  }

  lemma {:induction false} ByKeyFinds(rows: seq<Row>, key: Key)
    ensures key in ByKey(rows) ==> ByKey(rows)[key] in rows && KeyOf(ByKey(rows)[key]) == key
    ensures forall r :: r in rows && KeyOf(r) == key ==> key in ByKey(rows)
  {
    if rows != [] {
      ByKeyFinds(rows[..|rows| - 1], key);
      assert rows == rows[..|rows| - 1] + [rows[|rows| - 1]];
    }
  }

  lemma SameRowsSameIndex(rows: seq<Row>, other: seq<Row>)
    requires multiset(rows) == multiset(other) && Consistent(rows)
    ensures ByKey(rows) == ByKey(other)
  {
    forall r: Row ensures r in rows <==> r in other {
      assert r in multiset(rows) <==> r in multiset(other);
    }
    forall key: Key
      ensures key in ByKey(rows) <==> key in ByKey(other)
      ensures key in ByKey(rows) ==> ByKey(rows)[key] == ByKey(other)[key]
    {
      ByKeyFinds(rows, key);
      ByKeyFinds(other, key);
    }
  }

  lemma LastRowWins(rows: seq<Row>, i: nat) returns (other: seq<Row>)
    requires i < |rows|
    ensures multiset(other) == multiset(rows)
    ensures KeyOf(rows[i]) in ByKey(other) && ByKey(other)[KeyOf(rows[i])] == rows[i]
  {
    other := Without(rows, i) + [rows[i]];
    WithoutMultiset(rows, i);
    assert other[..|other| - 1] == Without(rows, i);
  }

  /** The row index is blind to the order of the rows exactly when no key carries two different rows;
      so are, in that case, all grades. */
  lemma IndexOrderBlindIff(rows: seq<Row>)
    ensures Consistent(rows) <==>
            forall other :: multiset(other) == multiset(rows) ==> ByKey(other) == ByKey(rows)
  {
    if Consistent(rows) {
      forall other | multiset(other) == multiset(rows) ensures ByKey(other) == ByKey(rows) {
        SameRowsSameIndex(rows, other);
      }
    } else {
      var r, s :| r in rows && s in rows && KeyOf(r) == KeyOf(s) && r != s;
      var i :| 0 <= i < |rows| && rows[i] == r;
      var j :| 0 <= j < |rows| && rows[j] == s;
      var a := LastRowWins(rows, i);
      var b := LastRowWins(rows, j);
      assert ByKey(a) != ByKey(b);
    }
  }

  // ------------------------------------------------------- monotonicity

  /** Same key and validity; the candidate may only become correct, the baseline only incorrect. */
  ghost predicate FavoursCandidate(r: Row, s: Row)
  {
    && KeyOf(r) == KeyOf(s) && r.valid == s.valid
    && (r.arm == Greppy && r.correct ==> s.correct)
    && (r.arm == Explorer && s.correct ==> r.correct)
  }

  ghost predicate RowsFavour(rows: seq<Row>, better: seq<Row>)
  {
    |rows| == |better| && forall i :: 0 <= i < |rows| ==> FavoursCandidate(rows[i], better[i])
  }

  /** Rows with the same keys and validity, related one by one. */
  ghost predicate RowsRelated(rows: seq<Row>, other: seq<Row>, rel: (Row, Row) -> bool)
  {
    && |rows| == |other|
    && forall i :: 0 <= i < |rows| ==>
         KeyOf(rows[i]) == KeyOf(other[i]) && rows[i].valid == other[i].valid && rel(rows[i], other[i])
  }

  /** What relates the rows relates the indexed rows, key by key. */
  lemma {:induction false} IndexRelated(rows: seq<Row>, other: seq<Row>, rel: (Row, Row) -> bool)
    requires RowsRelated(rows, other, rel)
    ensures ByKey(rows).Keys == ByKey(other).Keys
    ensures forall k :: k in ByKey(rows) ==>
      && KeyOf(ByKey(rows)[k]) == k && ByKey(rows)[k].valid == ByKey(other)[k].valid
      && rel(ByKey(rows)[k], ByKey(other)[k])
  {
    if rows != [] {
      var n := |rows| - 1;
      IndexRelated(rows[..n], other[..n], rel);
    }
  }

  ghost predicate PairRelated(p: Pair, q: Pair, rel: (Row, Row) -> bool)
  {
    p.base.arm == Explorer && p.cand.arm == Greppy && rel(p.base, q.base) && rel(p.cand, q.cand)
  }

  lemma {:induction false} PairsRelated(rows: seq<Row>, other: seq<Row>, tasks: seq<string>, rel: (Row, Row) -> bool)
    requires RowsRelated(rows, other, rel)
    ensures var p, q := PairsOf(ByKey(rows), tasks), PairsOf(ByKey(other), tasks);
            |p| == |q| && forall i :: 0 <= i < |p| ==> PairRelated(p[i], q[i], rel)
  {
    if tasks != [] {
      PairsRelated(rows, other, tasks[..|tasks| - 1], rel);
      IndexRelated(rows, other, rel);
    }
  }

  ghost predicate PairFavours(p: Pair, q: Pair)
  {
    (p.cand.correct ==> q.cand.correct) && (q.base.correct ==> p.base.correct)
  }

  ghost predicate PairsFavourCandidate(p: seq<Pair>, q: seq<Pair>)
  {
    |p| == |q| && forall i :: 0 <= i < |p| ==> PairFavours(p[i], q[i])
  }

  lemma PairsFavour(rows: seq<Row>, better: seq<Row>, tasks: seq<string>)
    requires RowsFavour(rows, better)
    ensures PairsFavourCandidate(PairsOf(ByKey(rows), tasks), PairsOf(ByKey(better), tasks))
  {
    PairsRelated(rows, better, tasks, FavoursCandidate);
    var p, q := PairsOf(ByKey(rows), tasks), PairsOf(ByKey(better), tasks);
    forall i | 0 <= i < |p| ensures PairFavours(p[i], q[i]) {
      assert PairRelated(p[i], q[i], FavoursCandidate);
    }
  }

  lemma BetterPairsKeepPassing(p: seq<Pair>, q: seq<Pair>, expected: nat)
    requires PairsFavourCandidate(p, q)
    ensures var g, h := GradeOf(p, expected), GradeOf(q, expected);
            && g.complete == h.complete && g.pairs == h.pairs
            && h.baselineOnly <= g.baselineOnly && g.candidateOnly <= h.candidateOnly
            && (g.observedNotLower ==> h.observedNotLower)
            && (g.noSignificantRegression ==> h.noSignificantRegression)
  {
    forall i | 0 <= i < |p|
      ensures BaselineOnly(q[i]) <= BaselineOnly(p[i]) && CandidateOnly(p[i]) <= CandidateOnly(q[i])
    {
      assert PairFavours(p[i], q[i]);
    }
    SumPointwise(q, p, BaselineOnly, BaselineOnly);
    SumPointwise(p, q, CandidateOnly, CandidateOnly);
    CountsNonNegative(p);
    CountsNonNegative(q);
    ExactMonotone(Sum(p, BaselineOnly), Sum(p, CandidateOnly), Sum(q, BaselineOnly), Sum(q, CandidateOnly));
  }

  /** Improving any rows in the candidate's favour keeps the correctness checks green. */
  lemma BetterRowsKeepPassing(rows: seq<Row>, better: seq<Row>, tasks: seq<string>)
    requires RowsFavour(rows, better)
    ensures var g, h := GradeOf(PairsOf(ByKey(rows), tasks), |tasks|),
                        GradeOf(PairsOf(ByKey(better), tasks), |tasks|);
            && g.complete == h.complete && g.pairs == h.pairs
            && h.baselineOnly <= g.baselineOnly && g.candidateOnly <= h.candidateOnly
            && (g.observedNotLower ==> h.observedNotLower)
            && (g.noSignificantRegression ==> h.noSignificantRegression)
  {
    PairsFavour(rows, better, tasks);
    BetterPairsKeepPassing(PairsOf(ByKey(rows), tasks), PairsOf(ByKey(better), tasks), |tasks|);
  }

  /** As in the release gate, the significance check never decides. */
  lemma SignificanceCheckRedundant(pairs: seq<Pair>, expected: nat)
    ensures var g := GradeOf(pairs, expected); g.observedNotLower ==> g.noSignificantRegression
  {
    var g := GradeOf(pairs, expected);
    SameVerdict(g.baselineOnly, g.candidateOnly, ALPHA);
  }
}
