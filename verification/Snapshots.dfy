/** Snapshots of the diagnostics: five separate reads taken while records may be running. */
module Snapshots {
  import opened Sequences
  import opened Samples
  import opened Diagnostics

  datatype Snapshot = Snapshot(
    count: nat, errors: nat, totalUs: nat, maxUs: nat, meanUs: nat, p50Us: nat, p95Us: nat, sampled: nat)

  /** The run positions at which one snapshot performs its four loads and its locked copy. Reads
      change nothing, so they need no steps of their own. */
  datatype Reads = Reads(count: nat, errors: nat, total: nat, max: nat, ring: nat)

  ghost predicate InProgramOrder(at: Reads, run: seq<State>)
  {
    at.count <= at.errors <= at.total <= at.max <= at.ring < |run|
  }

  function Take(run: seq<State>, at: Reads): Snapshot
    requires InProgramOrder(at, run)
  {
    var count, total := run[at.count].count, run[at.total].totalUs;
    var buf := run[at.ring].ring.buf;
    Snapshot(
      count, run[at.errors].errors, total, run[at.max].maxUs,
      if count == 0 then 0 else total / count,
      PercentileOf(buf, 50), PercentileOf(buf, 95), |buf|)
  }

  function ErrorRate(s: Snapshot): real
  {
    if s.count == 0 then 0.0 else s.errors as real / s.count as real
  }

  // ------------------------------------------------------ monotone reads

  /** What only ever grows: the unwrapped counters and the maximum. */
  ghost predicate Grows(s: State, t: State)
  {
    && |s.calls| <= |t.calls|
    && Sum(s.calls, Counted) <= Sum(t.calls, Counted)
    && Sum(s.calls, Failed) <= Sum(t.calls, Failed)
    && Sum(s.calls, Added) <= Sum(t.calls, Added)
    && s.maxUs <= t.maxUs
  }

  lemma StartGrows(s: State, t: State, micros: nat, ok: bool)
    requires Start(s, t, micros, ok)
    ensures Grows(s, t)
  {
    var c := Call(Saturate(micros), ok, AddCount);
    SumAppend(s.calls, c, Counted);
    SumAppend(s.calls, c, Failed);
    SumAppend(s.calls, c, Added);
  }

  lemma AdvanceRaises(s: State, t: State, i: nat)
    requires i < |s.calls| && Advance(s, t, i)
    ensures i < |t.calls| && t.calls == s.calls[i := t.calls[i]]
    ensures Counted(s.calls[i]) <= Counted(t.calls[i])
    ensures Failed(s.calls[i]) <= Failed(t.calls[i])
    ensures Added(s.calls[i]) <= Added(t.calls[i])
  {
  }

  lemma AdvanceGrows(s: State, t: State, i: nat)
    requires Invariant(s) && i < |s.calls| && Advance(s, t, i)
    ensures Grows(s, t)
  {
    AdvanceKeepsMax(s, t, i);
    AdvanceRaises(s, t, i);
    SumUpdate(s.calls, i, t.calls[i], Counted);
    SumUpdate(s.calls, i, t.calls[i], Failed);
    SumUpdate(s.calls, i, t.calls[i], Added);
  }

  lemma NextGrows(s: State, t: State)
    requires Invariant(s) && Next(s, t)
    ensures Grows(s, t)
  {
    if i: nat :| i < |s.calls| && Advance(s, t, i) {
      AdvanceGrows(s, t, i);
    } else {
      var micros: nat, ok: bool :| Start(s, t, micros, ok);
      StartGrows(s, t, micros, ok);
    }
  }

  lemma GrowsOn()
    ensures forall s, t, u :: Grows(s, t) && Grows(t, u) ==> Grows(s, u)
  {
  }

  lemma StepGrows(run: seq<State>, i: nat)
    requires IsRun(run) && i + 1 < |run|
    ensures Grows(run[i], run[i + 1])
  {
    RunInvariant(run, i);
    NextGrows(run[i], run[i + 1]);
  }

  lemma RunGrows(run: seq<State>, i: nat, j: nat)
    requires IsRun(run) && i <= j < |run|
    ensures Grows(run[i], run[j])
  {
    forall k | i <= k < j ensures Grows(run[k], run[k + 1]) {
      StepGrows(run, k);
    }
    GrowsOn();
    Chained(run, Grows, i, j);
  }

  ghost predicate NoWrap(s: State)
  {
    |s.calls| < U64 && Sum(s.calls, Us) < U64
  }

  /** Below the wrap-around point the stored counters are the sums themselves. */
  lemma UnwrappedCounters(run: seq<State>, i: nat, j: nat)
    requires IsRun(run) && i <= j < |run| && NoWrap(run[j])
    ensures run[i].count == Sum(run[i].calls, Counted)
    ensures run[i].errors == Sum(run[i].calls, Failed)
    ensures run[i].totalUs == Sum(run[i].calls, Added)
  {
    RunInvariant(run, i);
    RunGrows(run, i, j);
    UnwrappedEarlier(run[i], run[j]);
  }

  lemma UnwrappedEarlier(s: State, t: State)
    requires Invariant(s) && Grows(s, t) && NoWrap(t)
    ensures s.count == Sum(s.calls, Counted)
    ensures s.errors == Sum(s.calls, Failed)
    ensures s.totalUs == Sum(s.calls, Added)
  {
    FailedAtMostCounted(s);
    FailedAtMostCounted(t);
    SumsNonNegative(s);
    SumPointwise(t.calls, t.calls, Added, Us);
  }

  /** Each loaded counter lies between the values it had when the snapshot began and ended. */
  lemma SnapshotBracketed(run: seq<State>, at: Reads, begin: nat, end: nat)
    requires IsRun(run) && InProgramOrder(at, run)
    requires begin <= at.count && at.ring <= end < |run| && NoWrap(run[end])
    ensures run[begin].count <= Take(run, at).count <= run[end].count
    ensures run[begin].errors <= Take(run, at).errors <= run[end].errors
    ensures run[begin].totalUs <= Take(run, at).totalUs <= run[end].totalUs
    ensures run[begin].maxUs <= Take(run, at).maxUs <= run[end].maxUs
  {
    forall i | i in [begin, at.count, at.errors, at.total, at.max, end]
      ensures run[i].count == Sum(run[i].calls, Counted)
      ensures run[i].errors == Sum(run[i].calls, Failed)
      ensures run[i].totalUs == Sum(run[i].calls, Added)
    {
      UnwrappedCounters(run, i, end);
    }
    forall i | i in [at.count, at.errors, at.total, at.max]
      ensures Grows(run[begin], run[i]) && Grows(run[i], run[end])
    {
      RunGrows(run, begin, i);
      RunGrows(run, i, end);
    }
  }

  // -------------------------------------------------- snapshots at rest

  /** No record is in progress anywhere between the first and the last read. */
  ghost predicate Undisturbed(run: seq<State>, at: Reads)
    requires InProgramOrder(at, run)
  {
    forall i :: at.count <= i <= at.ring ==> Quiescent(run[i])
  }

  lemma StepDisturbs(s: State, t: State)
    requires Next(s, t) && Quiescent(s)
    ensures !Quiescent(t)
  {
    forall i: nat | i < |s.calls| ensures !Advance(s, t, i) {
      assert s.calls[i] in s.calls;
    }
    var micros: nat, ok: bool :| Start(s, t, micros, ok);
    assert t.calls[|s.calls|] in t.calls;
  }

  lemma UndisturbedIsOneState(run: seq<State>, at: Reads)
    requires IsRun(run) && InProgramOrder(at, run) && Undisturbed(run, at)
    ensures at.count == at.ring
  {
    if at.count < at.ring {
      StepDisturbs(run[at.count], run[at.count + 1]);
    }
  }

  lemma QuotientAtMost(a: nat, n: nat, b: nat)
    requires n > 0 && a <= n * b
    ensures a / n <= b
  {
    assert n * (a / n) <= a;
    assert n * (b - a / n) >= 0;
  }

  lemma MeanAtMostMax(calls: seq<Call>, maxUs: nat)
    requires calls != [] && forall c :: c in calls ==> c.us <= maxUs
    ensures (Sum(calls, Us) % U64) / |calls| <= maxUs
  {
    SumAtMost(calls, Us, maxUs);
    QuotientAtMost(Sum(calls, Us) % U64, |calls|, maxUs);
  }

  lemma PercentileAtMost(buf: seq<nat>, pct: nat, bound: nat)
    requires forall x :: x in buf ==> x <= bound
    ensures PercentileOf(buf, pct) <= bound
  {
    if buf != [] {
      PercentileIsNearestRank(buf, pct);
    }
  }

  lemma RetainedAtMost(r: Ring, h: seq<nat>, bound: nat)
    requires Retains(r, h) && forall j :: 0 <= j < |h| ==> h[j] <= bound
    ensures forall x :: x in r.buf ==> x <= bound
  {
    RetainedIsTail(r, h);
    forall x | x in r.buf ensures x <= bound {
      assert x in multiset(h[|h| - |r.buf|..]);
    }
  }

  lemma PercentilesAtMostMax(s: State)
    requires Invariant(s)
    ensures PercentileOf(s.ring.buf, 50) <= PercentileOf(s.ring.buf, 95) <= s.maxUs
  {
    RetainedAtMost(s.ring, s.pushed, s.maxUs);
    PercentileMonotone(s.ring.buf, 50, 95);
    PercentileAtMost(s.ring.buf, 95, s.maxUs);
  }

  lemma MeanAtRest(run: seq<State>, i: nat)
    requires IsRun(run) && i < |run| && Quiescent(run[i]) && 0 < |run[i].calls| < U64
    ensures run[i].count > 0 && run[i].totalUs / run[i].count <= run[i].maxUs
  {
    QuiescentExact(run, i);
    assert run[i].count == |run[i].calls|;
    MeanAtMostMax(run[i].calls, run[i].maxUs);
  }

  lemma SampledAtRest(run: seq<State>, i: nat)
    requires IsRun(run) && i < |run| && Quiescent(run[i])
    ensures |run[i].ring.buf| == Min(|run[i].calls|, SAMPLE_CAPACITY)
  {
    QuiescentExact(run, i);
    assert |multiset(run[i].pushed)| == |multiset(Latencies(run[i].calls))|;
  }

  /** A snapshot that overlaps no record is coherent, even if the total has wrapped. */
  lemma UndisturbedSnapshot(run: seq<State>, at: Reads)
    requires IsRun(run) && InProgramOrder(at, run) && Undisturbed(run, at)
    requires |run[at.count].calls| < U64
    ensures Take(run, at).errors <= Take(run, at).count
    ensures 0.0 <= ErrorRate(Take(run, at)) <= 1.0
    ensures Take(run, at).meanUs <= Take(run, at).maxUs
    ensures Take(run, at).p50Us <= Take(run, at).p95Us <= Take(run, at).maxUs
    ensures Take(run, at).sampled == Min(|run[at.count].calls|, SAMPLE_CAPACITY)
  {
    UndisturbedIsOneState(run, at);
    var s := run[at.count];
    assert Quiescent(s);
    RunInvariant(run, at.count);
    ErrorsAtMostCount(run, at.count);
    RateAtMostOne(Take(run, at));
    PercentilesAtMostMax(s);
    SampledAtRest(run, at.count);
    if s.calls != [] {
      MeanAtRest(run, at.count);
    }
  }

  lemma RateAtMostOne(s: Snapshot)
    requires s.errors <= s.count
    ensures 0.0 <= ErrorRate(s) <= 1.0
  {
    if s.count > 0 {
      var e, n := s.errors as real, s.count as real;
      assert e / n * n == e;
    }
  }

  /** With records running, the loaded error count can exceed the loaded call count by no more than
      the failures recorded between the two loads. */
  lemma OverlapExcess(run: seq<State>, at: Reads)
    requires IsRun(run) && InProgramOrder(at, run) && NoWrap(run[at.errors])
    ensures Take(run, at).errors
         <= Take(run, at).count + (run[at.errors].errors - run[at.count].errors)
  {
    ErrorsAtMostCount(run, at.count) by {
      RunGrows(run, at.count, at.errors);
    }
  }

  lemma Extend(run: seq<State>, t: State)
    requires IsRun(run) && Next(Last(run), t)
    ensures IsRun(run + [t])
  {
  }

  /** n failed calls of latency 0, each recorded up to and including its error. */
  function Recorded(n: nat): State
  {
    INITIAL.(count := n % U64, errors := n % U64, calls := seq(n, _ => Call(0, false, LoadMax)))
  }

  /** The same n calls, and one more on its way. */
  function Recording(n: nat, pc: Pc, count: nat, errors: nat): State
  {
    INITIAL.(count := count % U64, errors := errors % U64, calls := Recorded(n).calls + [Call(0, false, pc)])
  }

  lemma RecordingMoves(n: nat, pc: Pc, next: Pc, count: nat, errors: nat)
    ensures At(Recording(n, pc, count, errors), n, next) == Recording(n, next, count, errors)
  {
    assert Recording(n, pc, count, errors).calls[n := Call(0, false, next)]
        == Recording(n, next, count, errors).calls;
  }

  lemma RecordingAdvances(n: nat)
    ensures Advance(Recording(n, AddCount, n, n), Recording(n, AddTotal, n + 1, n), n)
    ensures Advance(Recording(n, AddTotal, n + 1, n), Recording(n, AddError, n + 1, n), n)
    ensures Advance(Recording(n, AddError, n + 1, n), Recording(n, LoadMax, n + 1, n + 1), n)
  {
    RecordingMoves(n, AddCount, AddTotal, n, n);
    RecordingMoves(n, AddTotal, AddError, n + 1, n);
    RecordingMoves(n, AddError, LoadMax, n + 1, n);
    WrapAdd(n, 1);
  }

  lemma ExtendAdvance(run: seq<State>, t: State, i: nat)
    requires IsRun(run) && i < |Last(run).calls| && Advance(Last(run), t, i)
    ensures IsRun(run + [t]) && Last(run + [t]) == t
  {
    Extend(run, t);
  }

  /** Records one more failed call, undisturbed. */
  lemma RecordOne(before: seq<State>, n: nat) returns (run: seq<State>)
    requires IsRun(before) && Last(before) == Recorded(n)
    ensures IsRun(run) && |run| == |before| + 4 && run[..|before|] == before
    ensures Last(run) == Recorded(n + 1)
  {
    var s1, s2 := Recording(n, AddCount, n, n), Recording(n, AddTotal, n + 1, n);
    var s3, s4 := Recording(n, AddError, n + 1, n), Recording(n, LoadMax, n + 1, n + 1);
    assert Start(Recorded(n), s1, 0, false);
    Extend(before, s1);
    RecordingAdvances(n);
    ExtendAdvance(before + [s1], s2, n);
    ExtendAdvance(before + [s1] + [s2], s3, n);
    ExtendAdvance(before + [s1] + [s2] + [s3], s4, n);
    run := before + [s1] + [s2] + [s3] + [s4];
    assert s4.calls == Recorded(n + 1).calls;
  }

  lemma {:induction false} RecordedRun(n: nat) returns (run: seq<State>)
    ensures IsRun(run) && run[0] == INITIAL && Last(run) == Recorded(n)
  {
    if n == 0 {
      run := [INITIAL];
      assert Recorded(0) == INITIAL;
    } else {
      var before := RecordedRun(n - 1);
      run := RecordOne(before, n - 1);
      assert run[0] == run[..|before|][0];
    }
  }

  lemma RecordedNoWrap(n: nat)
    requires n < U64
    ensures NoWrap(Recorded(n)) && Recorded(n).errors == Recorded(n).count == n
  {
    SumAtMost(Recorded(n).calls, Us, 0);
  }

  ghost predicate Snaps(run: seq<State>, at: Reads)
  {
    IsRun(run) && InProgramOrder(at, run) && NoWrap(run[at.ring])
  }

  /** The failures recorded between the load of the count and the load of the errors. */
  function FailuresBetween(run: seq<State>, at: Reads): int
    requires InProgramOrder(at, run)
  {
    run[at.errors].errors - run[at.count].errors
  }

  /** The excess is reached, whatever the number of failures between the loads. */
  lemma ExcessReached(k: nat) returns (run: seq<State>, at: Reads)
    requires k < U64
    ensures Snaps(run, at) && FailuresBetween(run, at) == k
    ensures Take(run, at).errors == Take(run, at).count + k
  {
    run := RecordedRun(k);
    RecordedNoWrap(k);
    var e := |run| - 1;
    at := Reads(0, e, e, e, e);
  }

  /** Snapshots with up to k failures between the two loads all have errors <= count exactly when
      k is zero. */
  lemma OverlapCoherentIff(k: nat)
    ensures (forall run: seq<State>, at: Reads :: Snaps(run, at) && FailuresBetween(run, at) <= k
               ==> Take(run, at).errors <= Take(run, at).count)
       <==> k == 0
  {
    if k == 0 {
      forall run: seq<State>, at: Reads | Snaps(run, at) && FailuresBetween(run, at) <= k
        ensures Take(run, at).errors <= Take(run, at).count
      {
        NoWrapEarlier(run, at.errors, at.ring);
        OverlapExcess(run, at);
      }
    } else {
      var run, at := ExcessReached(1);
    }
  }

  lemma NoWrapEarlier(run: seq<State>, i: nat, j: nat)
    requires IsRun(run) && i <= j < |run| && NoWrap(run[j])
    ensures NoWrap(run[i])
  {
    RunLengthens(run, i, j);
  }

  /** Calls keep their latency, so their sum only grows. */
  lemma RunLengthens(run: seq<State>, i: nat, j: nat)
    requires IsRun(run) && i <= j < |run|
    ensures Lengthens(run[i], run[j])
  {
    forall k | i <= k < j ensures Lengthens(run[k], run[k + 1]) {
      NextLengthens(run[k], run[k + 1]);
    }
    LengthensOn();
    Chained(run, Lengthens, i, j);
  }

  ghost predicate Lengthens(s: State, t: State)
  {
    |s.calls| <= |t.calls| && Sum(s.calls, Us) <= Sum(t.calls, Us)
  }

  lemma LengthensOn()
    ensures forall s, t, u :: Lengthens(s, t) && Lengthens(t, u) ==> Lengthens(s, u)
  {
  }

  lemma NextLengthens(s: State, t: State)
    requires Next(s, t)
    ensures Lengthens(s, t)
  {
    if a: nat :| a < |s.calls| && Advance(s, t, a) {
      AdvanceRaises(s, t, a);
      SumUpdate(s.calls, a, t.calls[a], Us);
    } else {
      var micros: nat, ok: bool :| Start(s, t, micros, ok);
      SumAppend(s.calls, Call(Saturate(micros), ok, AddCount), Us);
    }
  }

  /** The reported error rate leaves [0, 1] after a single failure between the loads. */
  lemma OverlapBreaksRate() returns (run: seq<State>, at: Reads)
    ensures Snaps(run, at) && FailuresBetween(run, at) == 1
    ensures ErrorRate(Take(run, at)) == 2.0
  {
    var before := RecordedRun(1);
    run := RecordOne(before, 1);
    RecordedNoWrap(1);
    RecordedNoWrap(2);
    var c, e := |before| - 1, |run| - 1;
    assert run[c] == run[..|before|][c];
    at := Reads(c, e, e, e, e);
  }

  /** So the rate, too, stays in [0, 1] in all snapshots with up to k failures between the loads exactly
      when k is zero. */
  lemma OverlapRateIff(k: nat)
    ensures (forall run: seq<State>, at: Reads :: Snaps(run, at) && FailuresBetween(run, at) <= k
               ==> 0.0 <= ErrorRate(Take(run, at)) <= 1.0)
       <==> k == 0
  {
    if k == 0 {
      forall run: seq<State>, at: Reads | Snaps(run, at) && FailuresBetween(run, at) <= k
        ensures 0.0 <= ErrorRate(Take(run, at)) <= 1.0
      {
        OverlapCoherentIff(0);
        RateAtMostOne(Take(run, at));
      }
    } else {
      var run, at := OverlapBreaksRate();
    }
  }

  // --------------------------------------- percentiles and mean in motion

  function Left(c: Call): int { if LeftLoop(c) then 1 else 0 }

  /** Calls keep their place and latency, and never come back into the CAS loop. */
  ghost predicate CallsKept(a: seq<Call>, b: seq<Call>)
  {
    && |a| <= |b|
    && forall i :: 0 <= i < |a| ==> b[i].us == a[i].us && (LeftLoop(a[i]) ==> LeftLoop(b[i]))
  }

  lemma NextKeepsCalls(s: State, t: State)
    requires Next(s, t)
    ensures CallsKept(s.calls, t.calls)
  {
    if i: nat :| i < |s.calls| && Advance(s, t, i) {
      AdvanceRaises(s, t, i);
    }
  }

  ghost predicate CallsStay(s: State, t: State) { CallsKept(s.calls, t.calls) }

  lemma CallsStayOn()
    ensures forall s, t, u :: CallsStay(s, t) && CallsStay(t, u) ==> CallsStay(s, u)
  {
  }

  lemma RunKeepsCalls(run: seq<State>, i: nat, j: nat)
    requires IsRun(run) && i <= j < |run|
    ensures CallsKept(run[i].calls, run[j].calls)
  {
    forall k | i <= k < j ensures CallsStay(run[k], run[k + 1]) {
      NextKeepsCalls(run[k], run[k + 1]);
    }
    CallsStayOn();
    Chained(run, CallsStay, i, j);
  }

  /** If as many calls have left the loop later as before, they are the same calls. */
  lemma {:induction false} NoneLeft(a: seq<Call>, b: seq<Call>)
    requires CallsKept(a, b)
    ensures Sum(a, Left) <= Sum(b, Left)
    ensures Sum(b, Left) <= Sum(a, Left) ==> forall i :: 0 <= i < |b| && LeftLoop(b[i]) ==> i < |a| && LeftLoop(a[i])
  {
    if b != [] {
      var n := |b| - 1;
      if |a| <= n {
        NoneLeft(a, b[..n]);
      } else {
        NoneLeft(a[..n], b[..n]);
      }
    }
  }

  lemma SumPositive<T>(xs: seq<T>, f: T -> int)
    requires Sum(xs, f) > 0 && forall x :: x in xs ==> f(x) >= 0
    ensures exists x :: x in xs && f(x) > 0
  {
    if forall x :: x in xs ==> f(x) <= 0 {
      SumAtMost(xs, f, 0);
    }
  }

  /** Every pushed sample is the latency of a call that is done. */
  lemma PushedIsDone(s: State, k: nat)
    requires Invariant(s) && k < |s.pushed|
    ensures exists i :: 0 <= i < |s.calls| && LeftLoop(s.calls[i]) && s.calls[i].us == s.pushed[k]
  {
    var v := s.pushed[k];
    assert v in multiset(s.pushed);
    SumPositive(s.calls, DoneWith(v));
    var c :| c in s.calls && DoneWith(v)(c) > 0;
    var i :| 0 <= i < |s.calls| && s.calls[i] == c;
  }

  /** The calls that leave the CAS loop between the load of the maximum and the copy of the ring. */
  function LeavingBetween(run: seq<State>, at: Reads): int
    requires InProgramOrder(at, run)
  {
    Sum(run[at.ring].calls, Left) - Sum(run[at.max].calls, Left)
  }

  lemma SettledPercentiles(run: seq<State>, at: Reads)
    requires IsRun(run) && InProgramOrder(at, run) && LeavingBetween(run, at) <= 0
    ensures Take(run, at).p95Us <= Take(run, at).maxUs
  {
    var s, t := run[at.max], run[at.ring];
    RunInvariant(run, at.max);
    RunInvariant(run, at.ring);
    RunKeepsCalls(run, at.max, at.ring);
    NoneLeft(s.calls, t.calls);
    forall k | 0 <= k < |t.pushed| ensures t.pushed[k] <= s.maxUs {
      PushedIsDone(t, k);
      var i :| 0 <= i < |t.calls| && LeftLoop(t.calls[i]) && t.calls[i].us == t.pushed[k];
      assert CallOk(s.calls[i], s.maxUs);
    }
    RetainedAtMost(t.ring, t.pushed, s.maxUs);
    PercentileAtMost(t.ring.buf, 95, s.maxUs);
  }

  /** p50 <= p95 always, since both read one copy of the ring. */
  lemma MedianBelowP95(run: seq<State>, at: Reads)
    requires InProgramOrder(at, run)
    ensures Take(run, at).p50Us <= Take(run, at).p95Us
  {
    PercentileMonotone(run[at.ring].ring.buf, 50, 95);
  }

  /** One call of latency 1, from its start to its sample, and its states on the way. */
  lemma SoloRun() returns (run: seq<State>)
    ensures IsRun(run) && |run| == 7
    ensures run[3] == INITIAL.(count := 1, totalUs := 1, calls := [Call(1, true, LoadMax)])
    ensures run[6] == INITIAL.(count := 1, totalUs := 1, maxUs := 1, ring := Pushed(EMPTY_RING, 1),
                               calls := [Call(1, true, Done)], pushed := [1])
  {
    var c := Call(1, true, AddCount);
    var s1 := INITIAL.(calls := [c]);
    assert Start(INITIAL, s1, 1, true);
    var s2 := s1.(count := 1, calls := [c.(pc := AddTotal)]);
    assert Advance(s1, s2, 0);
    var s3 := s2.(totalUs := 1, calls := [c.(pc := LoadMax)]);
    assert Advance(s2, s3, 0);
    var s4 := s3.(calls := [c.(pc := CasMax(0))]);
    assert Advance(s3, s4, 0);
    var s5 := s4.(maxUs := 1, calls := [c.(pc := PushSample)]);
    assert Advance(s4, s5, 0);
    var s6 := s5.(ring := Pushed(EMPTY_RING, 1), calls := [c.(pc := Done)], pushed := [1]);
    assert s5.pushed + [1] == [1];
    assert Advance(s5, s6, 0);
    run := [INITIAL, s1, s2, s3, s4, s5, s6];
  }

  lemma LateSample() returns (run: seq<State>, at: Reads)
    ensures Snaps(run, at) && LeavingBetween(run, at) == 1
    ensures Take(run, at).p95Us > Take(run, at).maxUs
  {
    run := SoloRun();
    at := Reads(3, 3, 3, 3, 6);
    assert run[6].calls == [Call(1, true, Done)] && run[3].calls == [Call(1, true, LoadMax)];
    OneCall(Call(1, true, LoadMax));
    OneCall(Call(1, true, Done));
    assert NoWrap(run[6]);
    LateSampleTaken(run[3], run[6]);
  }

  lemma LateSampleTaken(early: State, late: State)
    requires early.maxUs == 0 && late.ring == Pushed(EMPTY_RING, 1)
    ensures PercentileOf(late.ring.buf, 95) > early.maxUs
  {
    assert late.ring.buf == [1];
    OneSample();
  }

  lemma OneSample()
    ensures PercentileOf([1], 95) == 1
  {
    PercentileIsNearestRank([1], 95);
  }

  lemma OneCall(c: Call)
    ensures Sum([c], Left) == Left(c) && Sum([c], Us) == c.us
  {
    assert [c] == [] + [c];
    SumAppend([], c, Left);
    SumAppend([], c, Us);
  }

  /** All snapshots during which at most k calls leave the CAS loop between the load of the maximum and
      the copy of the ring have p95 <= max exactly when k is zero. */
  lemma OverlapPercentileIff(k: nat)
    ensures (forall run: seq<State>, at: Reads :: Snaps(run, at) && LeavingBetween(run, at) <= k
               ==> Take(run, at).p95Us <= Take(run, at).maxUs)
       <==> k == 0
  {
    if k == 0 {
      forall run: seq<State>, at: Reads | Snaps(run, at) && LeavingBetween(run, at) <= k
        ensures Take(run, at).p95Us <= Take(run, at).maxUs
      {
        SettledPercentiles(run, at);
      }
    } else {
      var run, at := LateSample();
    }
  }

  predicate PastTotal(c: Call) { c.pc != AddCount && c.pc != AddTotal }

  /** Of the calls in `a`, those that have added their latency there and are still in the loop in `b`. */
  function Unsettled(a: seq<Call>, b: seq<Call>): nat
    requires |a| <= |b|
  {
    if a == [] then 0
    else
      var n := |a| - 1;
      Unsettled(a[..n], b) + if PastTotal(a[n]) && !LeftLoop(b[n]) then 1 else 0
  }

  lemma {:induction false} AllSettled(a: seq<Call>, b: seq<Call>)
    requires |a| <= |b| && Unsettled(a, b) == 0
    ensures forall i :: 0 <= i < |a| && PastTotal(a[i]) ==> LeftLoop(b[i])
  {
    if a != [] {
      AllSettled(a[..|a| - 1], b);
    }
  }

  /** The calls counted between the load of the count and the load of the total. */
  function CountedBetween(run: seq<State>, at: Reads): int
    requires InProgramOrder(at, run)
  {
    Sum(run[at.total].calls, Counted) - Sum(run[at.count].calls, Counted)
  }

  /** The calls whose latency the loaded total holds and the loaded maximum need not cover. */
  ghost function UnsettledAt(run: seq<State>, at: Reads): nat
    requires IsRun(run) && InProgramOrder(at, run)
  {
    RunKeepsCalls(run, at.total, at.max);
    Unsettled(run[at.total].calls, run[at.max].calls)
  }

  lemma {:induction false} SumScaled(calls: seq<Call>, bound: nat)
    requires forall c :: c in calls && PastTotal(c) ==> c.us <= bound
    ensures Sum(calls, Added) <= Sum(calls, Counted) * bound
  {
    if calls != [] {
      var n := |calls| - 1;
      SumScaled(calls[..n], bound);
      assert calls[n] in calls;
      assert Sum(calls, Counted) * bound == Sum(calls[..n], Counted) * bound + Counted(calls[n]) * bound;
    }
  }

  lemma SettledMean(run: seq<State>, at: Reads)
    requires Snaps(run, at) && CountedBetween(run, at) <= 0 && UnsettledAt(run, at) == 0
    ensures Take(run, at).meanUs <= Take(run, at).maxUs
  {
    var s, m := run[at.total], run[at.max];
    NoWrapEarlier(run, at.count, at.ring);
    NoWrapEarlier(run, at.total, at.ring);
    UnwrappedCounters(run, at.count, at.count);
    UnwrappedCounters(run, at.total, at.total);
    RunInvariant(run, at.max);
    RunKeepsCalls(run, at.total, at.max);
    AllSettled(s.calls, m.calls);
    forall c | c in s.calls && PastTotal(c) ensures c.us <= m.maxUs {
      var i :| 0 <= i < |s.calls| && s.calls[i] == c;
      assert CallOk(m.calls[i], m.maxUs);
    }
    SumScaled(s.calls, m.maxUs);
    var count := run[at.count].count;
    if count > 0 {
      TimesMonotone(Sum(s.calls, Counted), count, m.maxUs);
      QuotientAtMost(s.totalUs, count, m.maxUs);
    }
  }

  /** A call in the loop: its latency is in the total and not yet in the maximum. */
  lemma UnsettledCall() returns (run: seq<State>, at: Reads)
    ensures Snaps(run, at) && CountedBetween(run, at) == 0 && UnsettledAt(run, at) == 1
    ensures Take(run, at).meanUs > Take(run, at).maxUs
  {
    run := SoloRun();
    at := Reads(3, 3, 3, 3, 3);
    var calls := run[3].calls;
    assert calls[..0] == [] && Unsettled(calls, calls) == 1;
    SumAtMost(calls, Us, 1);
  }

  /** A call counted late: its latency is in the total and it is not in the count. */
  lemma LateCall() returns (run: seq<State>, at: Reads)
    ensures Snaps(run, at) && CountedBetween(run, at) == 1 && UnsettledAt(run, at) == 0
    ensures Take(run, at).meanUs > Take(run, at).maxUs
  {
    var before := SoloRun();
    var a, b := Call(1, true, Done), Call(1, true, AddCount);
    var s6 := before[6];
    var s7 := s6.(calls := [a, b]);
    assert Start(s6, s7, 1, true);
    Extend(before, s7);
    var s8 := s7.(count := 2, calls := [a, b.(pc := AddTotal)]);
    assert Advance(s7, s8, 1);
    Extend(before + [s7], s8);
    var s9 := s8.(totalUs := 2, calls := [a, b.(pc := LoadMax)]);
    assert Advance(s8, s9, 1);
    Extend(before + [s7] + [s8], s9);
    var s10 := s9.(calls := [a, b.(pc := PushSample)]);
    assert Advance(s9, s10, 1);
    Extend(before + [s7] + [s8] + [s9], s10);
    run := before + [s7] + [s8] + [s9] + [s10];
    at := Reads(6, 6, 10, 10, 10);
    LateCallCounts(s6.calls, s10.calls);
  }

  lemma LateCallCounts(early: seq<Call>, late: seq<Call>)
    requires early == [Call(1, true, Done)] && late == [Call(1, true, Done), Call(1, true, PushSample)]
    ensures Sum(early, Counted) == 1 && Sum(late, Counted) == 2 && Sum(late, Us) == 2
    ensures Unsettled(late, late) == 0
  {
    assert early[..0] == [] && late[..1] == early;
    SumAppend([], early[0], Counted);
    SumAppend(early, late[1], Counted);
    SumAppend([], early[0], Us);
    SumAppend(early, late[1], Us);
    assert late == early + [late[1]] && early == [] + [early[0]];
    assert Unsettled(early, late) == 0;
  }

  /** All snapshots with at most j calls counted between the loads of count and total, and at most k
      calls whose added latency has not reached the maximum when that is loaded, have mean <= max exactly
      when both are zero. */
  lemma OverlapMeanIff(j: nat, k: nat)
    ensures (forall run: seq<State>, at: Reads ::
               Snaps(run, at) && CountedBetween(run, at) <= j && UnsettledAt(run, at) <= k
               ==> Take(run, at).meanUs <= Take(run, at).maxUs)
       <==> j == 0 && k == 0
  {
    if j == 0 && k == 0 {
      forall run: seq<State>, at: Reads | Snaps(run, at) && CountedBetween(run, at) <= j && UnsettledAt(run, at) <= k
        ensures Take(run, at).meanUs <= Take(run, at).maxUs
      {
        SettledMean(run, at);
      }
    } else if k > 0 {
      var run, at := UnsettledCall();
    } else {
      var run, at := LateCall();
    }
  }
}
