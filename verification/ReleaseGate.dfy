/** The agent-efficiency release gate: paired win/loss counting, efficiency ratios and all its checks. */
module ReleaseGate {
  import opened Sequences
  import opened Binomial

  const ALPHA: real := 0.05

  datatype Metric = ToolCalls | SourceOpens | VariableInput

  /** `score` is the graded quality score and `correct` the plain verdict; either may be absent, and so
      may any metric. */
  datatype AgentResult = AgentResult(score: Option<real>, correct: Option<bool>, metrics: map<Metric, real>)

  /** `locate` tells the rows of the structural task type. */
  datatype Row = Row(locate: bool, baseline: Option<AgentResult>, candidate: Option<AgentResult>)

  datatype Outcome = NotComparable | Ungraded | Loss | Tie | Win

  function Quality(r: AgentResult): Option<real>
  {
    if r.score.Some? then r.score
    else if r.correct.Some? then Some(if r.correct.value then 1.0 else 0.0)
    else None
  }

  function OutcomeOf(row: Row): Outcome
  {
    if row.baseline.None? || row.candidate.None? then NotComparable
    else
      var base, cand := Quality(row.baseline.value), Quality(row.candidate.value);
      if base.None? || cand.None? then Ungraded
      else if cand.value < base.value then Loss
      else if cand.value > base.value then Win
      else Tie
  }

  function Is(o: Outcome): Row -> int
  {
    (row: Row) => if OutcomeOf(row) == o then 1 else 0
  }

  function Comparable(row: Row): int
  {
    if OutcomeOf(row) == NotComparable then 0 else 1
  }

  datatype Tally = Tally(comparable: nat, missing: nat, losses: nat, wins: nat, ties: nat)

  ghost predicate Tallies(t: Tally, rows: seq<Row>)
  {
    && t.comparable == Sum(rows, Comparable)
    && t.missing == Sum(rows, Is(Ungraded))
    && t.losses == Sum(rows, Is(Loss))
    && t.wins == Sum(rows, Is(Win))
    && t.ties == Sum(rows, Is(Tie))
  }

  method CountOutcomes(rows: seq<Row>) returns (t: Tally)
    ensures Tallies(t, rows)
    ensures t.missing + t.losses + t.wins + t.ties == t.comparable
  {
    t := Tally(0, 0, 0, 0, 0);
    for i := 0 to |rows|
      invariant Tallies(t, rows[..i])
      invariant t.missing + t.losses + t.wins + t.ties == t.comparable
    {
      var row := rows[i];
      assert rows[..i + 1][..i] == rows[..i];
      if row.baseline.Some? && row.candidate.Some? {
        t := t.(comparable := t.comparable + 1);
        var base, cand := Quality(row.baseline.value), Quality(row.candidate.value);
        if base.None? || cand.None? {
          t := t.(missing := t.missing + 1);
        } else if cand.value < base.value {
          t := t.(losses := t.losses + 1);
        } else if cand.value > base.value {
          t := t.(wins := t.wins + 1);
        } else {
          t := t.(ties := t.ties + 1);
        }
      }
    }
    assert rows[..|rows|] == rows;
  }

  /** The three correctness checks of the gate. */
  predicate CorrectnessPasses(t: Tally)
  {
    && t.missing == 0 && t.comparable > 0
    && t.wins >= t.losses
    && OneSidedLossP(t.losses, t.wins) >= ALPHA
  }

  /** No row got worse, and no row's grade appeared or vanished. */
  ghost predicate NoWorse(rows: seq<Row>, better: seq<Row>)
  {
    && |rows| == |better|
    && forall i :: 0 <= i < |rows| ==>
         var o, o' := OutcomeOf(rows[i]), OutcomeOf(better[i]);
         o == o' || (o == Loss && o' in {Tie, Win}) || (o == Tie && o' == Win)
  }

  /** Better evidence never fails a gate that worse evidence passed: turning any rows from loss to
      tie or win, or from tie to win, keeps the correctness checks green. */
  lemma BetterRowsKeepPassing(rows: seq<Row>, better: seq<Row>, t: Tally, t': Tally)
    requires NoWorse(rows, better) && Tallies(t, rows) && Tallies(t', better)
    ensures CorrectnessPasses(t) ==> CorrectnessPasses(t')
    ensures OneSidedLossP(t'.losses, t'.wins) >= OneSidedLossP(t.losses, t.wins)
  {
    forall i | 0 <= i < |rows|
      ensures Comparable(rows[i]) <= Comparable(better[i])
      ensures Is(Ungraded)(better[i]) <= Is(Ungraded)(rows[i])
      ensures Is(Loss)(better[i]) <= Is(Loss)(rows[i]) && Is(Win)(rows[i]) <= Is(Win)(better[i])
    {
    }
    SumPointwise(rows, better, Comparable, Comparable);
    SumPointwise(better, rows, Is(Ungraded), Is(Ungraded));
    SumPointwise(better, rows, Is(Loss), Is(Loss));
    SumPointwise(rows, better, Is(Win), Is(Win));
    OneSidedMonotone(t.losses, t.wins, t'.losses, t'.wins);
  }

  /** The significance check never decides: wins >= losses already implies it. */
  lemma SignificanceCheckRedundant(t: Tally)
    ensures CorrectnessPasses(t) <==> t.missing == 0 && t.comparable > 0 && t.wins >= t.losses
  {
    SameVerdict(t.losses, t.wins, ALPHA);
  }

  // ---------------------------------------------------------- efficiency

  predicate Measured(row: Row, m: Metric)
  {
    && row.baseline.Some? && row.candidate.Some?
    && m in row.baseline.value.metrics && m in row.candidate.value.metrics
  }

  function MeasuredIn(m: Metric): Row -> bool
  {
    (row: Row) => Measured(row, m)
  }

  predicate IsStructural(row: Row)
  {
    row.locate && row.baseline.Some? && row.candidate.Some?
  }

  /** The sum of a metric over the rows that carry it on both sides. */
  function BaseTotal(rows: seq<Row>, m: Metric): real
  {
    if rows == [] then 0.0
    else
      var last := rows[|rows| - 1];
      BaseTotal(rows[..|rows| - 1], m) + if Measured(last, m) then last.baseline.value.metrics[m] else 0.0
  }

  function CandTotal(rows: seq<Row>, m: Metric): real
  {
    if rows == [] then 0.0
    else
      var last := rows[|rows| - 1];
      CandTotal(rows[..|rows| - 1], m) + if Measured(last, m) then last.candidate.value.metrics[m] else 0.0
  }

  lemma TotalsAppend(rows: seq<Row>, row: Row, m: Metric)
    ensures BaseTotal(rows + [row], m)
      == BaseTotal(rows, m) + if Measured(row, m) then row.baseline.value.metrics[m] else 0.0
    ensures CandTotal(rows + [row], m)
      == CandTotal(rows, m) + if Measured(row, m) then row.candidate.value.metrics[m] else 0.0
  {
    assert (rows + [row])[..|rows|] == rows;
  }

  lemma {:induction false} UnmeasuredTotal(rows: seq<Row>, m: Metric)
    requires Filter(rows, MeasuredIn(m)) == []
    ensures BaseTotal(rows, m) == 0.0
  {
    if rows != [] {
      UnmeasuredTotal(rows[..|rows| - 1], m);
    }
  }

  /** The totals of the rows measured on both sides, and their number. */
  method MetricTotals(rows: seq<Row>, m: Metric) returns (base: real, cand: real, count: nat)
    ensures base == BaseTotal(rows, m) && cand == CandTotal(rows, m)
    ensures count == |Filter(rows, MeasuredIn(m))|
  {
    base, cand, count := 0.0, 0.0, 0;
    for i := 0 to |rows|
      invariant base == BaseTotal(rows[..i], m) && cand == CandTotal(rows[..i], m)
      invariant count == |Filter(rows[..i], MeasuredIn(m))|
    {
      assert rows[..i + 1] == rows[..i] + [rows[i]];
      TotalsAppend(rows[..i], rows[i], m);
      FilterAppend(rows[..i], rows[i], MeasuredIn(m));
      if Measured(rows[i], m) {
        base := base + rows[i].baseline.value.metrics[m];
        cand := cand + rows[i].candidate.value.metrics[m];
        count := count + 1;
      }
    }
    assert rows[..|rows|] == rows;
  }

  lemma QuotientTimes(cand: real, base: real)
    requires base > 0.0
    ensures cand / base * base == cand
  {
  }

  /** A ratio exists exactly when the baseline's total is positive, and scales it to the candidate's. */
  method MetricRatio(rows: seq<Row>, m: Metric) returns (ratio: Option<real>, count: nat)
    ensures count == |Filter(rows, MeasuredIn(m))|
    ensures ratio.Some? <==> BaseTotal(rows, m) > 0.0
    ensures ratio.Some? ==> ratio.value * BaseTotal(rows, m) == CandTotal(rows, m)
  {
    var base, cand;
    base, cand, count := MetricTotals(rows, m);
    if count == 0 {
      UnmeasuredTotal(rows, m);
    }
    if count == 0 || base <= 0.0 {
      return None, count;
    }
    QuotientTimes(cand, base);
    ratio := Some(cand / base);
  }

  /** The candidate's total is at most four fifths of a positive baseline total. */
  predicate FifthLower(rows: seq<Row>, m: Metric)
  {
    BaseTotal(rows, m) > 0.0 && CandTotal(rows, m) <= 0.8 * BaseTotal(rows, m)
  }

  method CheckMetric(rows: seq<Row>, m: Metric) returns (ok: bool)
    ensures ok <==> FifthLower(rows, m)
  {
    var ratio, count := MetricRatio(rows, m);
    ok := ratio.Some? && ratio.value <= 0.8;
    if ratio.Some? {
      RatioBound(ratio.value, BaseTotal(rows, m));
    }
  }

  lemma RatioBound(ratio: real, base: real)
    requires base > 0.0
    ensures ratio <= 0.8 <==> ratio * base <= 0.8 * base
  {
    if ratio <= 0.8 {
      assert (0.8 - ratio) * base >= 0.0;
    } else {
      assert (ratio - 0.8) * base > 0.0;
    }
  }

  ghost predicate Efficient(rows: seq<Row>)
  {
    var structural := Filter(rows, IsStructural);
    FifthLower(structural, ToolCalls) && FifthLower(structural, SourceOpens) && FifthLower(structural, VariableInput)
  }

  method Gate(rows: seq<Row>) returns (passed: bool, t: Tally)
    ensures Tallies(t, rows)
    ensures passed <==> CorrectnessPasses(t) && Efficient(rows)
  {
    t := CountOutcomes(rows);
    var structural := Filter(rows, IsStructural);
    var tools := CheckMetric(structural, ToolCalls);
    var opens := CheckMetric(structural, SourceOpens);
    var input := CheckMetric(structural, VariableInput);
    passed := CorrectnessPasses(t) && tools && opens && input;
  }

  /** The same row with the candidate's metrics no higher. */
  ghost predicate RowNoDearer(row: Row, other: Row)
  {
    && IsStructural(row) == IsStructural(other)
    && (forall m :: Measured(row, m) == Measured(other, m))
    && (forall m :: Measured(row, m) ==>
          && row.baseline.value.metrics[m] == other.baseline.value.metrics[m]
          && other.candidate.value.metrics[m] <= row.candidate.value.metrics[m])
  }

  lemma {:induction false} TotalsNoDearer(rows: seq<Row>, other: seq<Row>, m: Metric)
    requires |rows| == |other| && forall i :: 0 <= i < |rows| ==> RowNoDearer(rows[i], other[i])
    ensures BaseTotal(Filter(rows, IsStructural), m) == BaseTotal(Filter(other, IsStructural), m)
    ensures CandTotal(Filter(other, IsStructural), m) <= CandTotal(Filter(rows, IsStructural), m)
  {
    if rows != [] {
      var n := |rows| - 1;
      TotalsNoDearer(rows[..n], other[..n], m);
      assert RowNoDearer(rows[n], other[n]);
      TotalsAppend(Filter(rows[..n], IsStructural), rows[n], m);
      TotalsAppend(Filter(other[..n], IsStructural), other[n], m);
    }
  }

  /** The whole gate is monotone: better outcomes at no higher cost never fail a gate that passed. */
  lemma GateMonotone(rows: seq<Row>, better: seq<Row>, t: Tally, t': Tally)
    requires NoWorse(rows, better) && Tallies(t, rows) && Tallies(t', better)
    requires forall i :: 0 <= i < |rows| ==> RowNoDearer(rows[i], better[i])
    ensures CorrectnessPasses(t) && Efficient(rows) ==> CorrectnessPasses(t') && Efficient(better)
  {
    BetterRowsKeepPassing(rows, better, t, t');
    forall m: Metric ensures FifthLower(Filter(rows, IsStructural), m) ==> FifthLower(Filter(better, IsStructural), m) {
      TotalsNoDearer(rows, better, m);
    }
  }
}
