/** Query diagnostics as a step machine: any number of `record_query` calls interleave, one atomic
    operation (or one section under the sample lock) per step, under sequential consistency. */
module Diagnostics {
  import opened Sequences
  import opened Samples

  const U64: nat := 0x1_0000_0000_0000_0000

  /** What a call does next. `CasMax(seen)` is the body of the CAS loop with the value last seen. */
  datatype Pc = AddCount | AddTotal | AddError | LoadMax | CasMax(seen: nat) | PushSample | Done

  datatype Call = Call(us: nat, ok: bool, pc: Pc)

  /** The shared counters and ring, the calls made so far and, as a history, every pushed sample. */
  datatype State = State(
    count: nat, errors: nat, totalUs: nat, maxUs: nat, ring: Ring,
    calls: seq<Call>, pushed: seq<nat>)

  const INITIAL := State(0, 0, 0, 0, EMPTY_RING, [], [])

  function Saturate(micros: nat): nat { Min(micros, U64 - 1) }

  /** The loop test `us > old` decides between another CAS and leaving the loop. */
  function AfterRead(us: nat, seen: nat): Pc
  {
    if us > seen then CasMax(seen) else PushSample
  }

  ghost predicate Start(s: State, t: State, micros: nat, ok: bool)
  {
    t == s.(calls := s.calls + [Call(Saturate(micros), ok, AddCount)])
  }

  function At(s: State, i: nat, pc: Pc): State
    requires i < |s.calls|
  {
    s.(calls := s.calls[i := s.calls[i].(pc := pc)])
  }

  /** One atomic operation of call i. A weak compare-exchange may fail even when the value matches,
      so the failing branch of the CAS is always enabled. */
  ghost predicate Advance(s: State, t: State, i: nat)
    requires i < |s.calls|
  {
    var c := s.calls[i];
    match c.pc
    case AddCount => t == At(s, i, AddTotal).(count := (s.count + 1) % U64)
    case AddTotal =>
      t == At(s, i, if c.ok then LoadMax else AddError).(totalUs := (s.totalUs + c.us) % U64)
    case AddError => t == At(s, i, LoadMax).(errors := (s.errors + 1) % U64)
    case LoadMax => t == At(s, i, AfterRead(c.us, s.maxUs))
    case CasMax(seen) =>
      || (s.maxUs == seen && t == At(s, i, PushSample).(maxUs := c.us))
      || t == At(s, i, AfterRead(c.us, s.maxUs))
    case PushSample =>
      && RingValid(s.ring)
      && t == At(s, i, Done).(ring := Pushed(s.ring, c.us), pushed := s.pushed + [c.us])
    case Done => false
  }

  ghost predicate Next(s: State, t: State)
  {
    || (exists micros: nat, ok: bool :: Start(s, t, micros, ok))
    || (exists i: nat :: i < |s.calls| && Advance(s, t, i))
  }

  ghost predicate IsRun(run: seq<State>)
  {
    && run != [] && run[0] == INITIAL
    && forall i :: 0 <= i < |run| - 1 ==> Next(run[i], run[i + 1])
  }

  function Last(run: seq<State>): State
    requires run != []
  {
    run[|run| - 1]
  }

  // ----------------------------------------------------------- invariant

  predicate LeftLoop(c: Call) { c.pc == PushSample || c.pc == Done }

  function Counted(c: Call): int { if c.pc == AddCount then 0 else 1 }

  function Added(c: Call): int { if c.pc == AddCount || c.pc == AddTotal then 0 else c.us }

  function Failed(c: Call): int
  {
    if c.ok || c.pc == AddCount || c.pc == AddTotal || c.pc == AddError then 0 else 1
  }

  /** Tells the finished calls whose latency is v. */
  function DoneWith(v: nat): Call -> int
  {
    (c: Call) => if c.pc == Done && c.us == v then 1 else 0
  }

  ghost predicate CallOk(c: Call, maxUs: nat)
  {
    && c.us < U64
    && (LeftLoop(c) ==> c.us <= maxUs)
    && (c.pc.CasMax? ==> c.pc.seen < c.us && c.pc.seen <= maxUs)
    && (c.pc == AddError ==> !c.ok)
  }

  ghost predicate Invariant(s: State)
  {
    && s.count == Sum(s.calls, Counted) % U64
    && s.errors == Sum(s.calls, Failed) % U64
    && s.totalUs == Sum(s.calls, Added) % U64
    && s.maxUs < U64
    && (s.maxUs == 0 || exists i :: 0 <= i < |s.calls| && s.calls[i].us == s.maxUs && LeftLoop(s.calls[i]))
    && (forall i :: 0 <= i < |s.calls| ==> CallOk(s.calls[i], s.maxUs))
    && Retains(s.ring, s.pushed)
    && (forall v: nat :: multiset(s.pushed)[v] == Sum(s.calls, DoneWith(v)))
    && (forall i :: 0 <= i < |s.pushed| ==> s.pushed[i] <= s.maxUs)
  }

  lemma StartKeepsInvariant(s: State, t: State, micros: nat, ok: bool)
    requires Invariant(s) && Start(s, t, micros, ok)
    ensures Invariant(t)
  {
    var c := Call(Saturate(micros), ok, AddCount);
    SumAppend(s.calls, c, Counted);
    SumAppend(s.calls, c, Failed);
    SumAppend(s.calls, c, Added);
    forall v: nat ensures multiset(t.pushed)[v] == Sum(t.calls, DoneWith(v)) {
      SumAppend(s.calls, c, DoneWith(v));
    }
    if s.maxUs != 0 {
      var i :| 0 <= i < |s.calls| && s.calls[i].us == s.maxUs && LeftLoop(s.calls[i]);
      assert t.calls[i] == s.calls[i];
    }
  }

  lemma WrapAdd(a: nat, b: nat)
    ensures (a % U64 + b) % U64 == (a + b) % U64
  {
  }

  lemma SumsNonNegative(s: State)
    ensures Sum(s.calls, Counted) >= 0 && Sum(s.calls, Failed) >= 0 && Sum(s.calls, Added) >= 0
  {
    SumNonNegative(s.calls, Counted);
    SumNonNegative(s.calls, Failed);
    SumNonNegative(s.calls, Added);
  }

  lemma AdvanceKeepsCount(s: State, t: State, i: nat)
    requires s.count == Sum(s.calls, Counted) % U64 && i < |s.calls| && Advance(s, t, i)
    ensures t.count == Sum(t.calls, Counted) % U64
  {
    assert t.calls == s.calls[i := t.calls[i]];
    SumUpdate(s.calls, i, t.calls[i], Counted);
    SumsNonNegative(s);
    WrapAdd(Sum(s.calls, Counted), 1);
  }

  lemma AdvanceKeepsErrors(s: State, t: State, i: nat)
    requires s.errors == Sum(s.calls, Failed) % U64 && i < |s.calls| && Advance(s, t, i)
    requires CallOk(s.calls[i], s.maxUs)
    ensures t.errors == Sum(t.calls, Failed) % U64
  {
    assert t.calls == s.calls[i := t.calls[i]];
    SumUpdate(s.calls, i, t.calls[i], Failed);
    SumsNonNegative(s);
    WrapAdd(Sum(s.calls, Failed), 1);
  }

  lemma AdvanceKeepsTotal(s: State, t: State, i: nat)
    requires s.totalUs == Sum(s.calls, Added) % U64 && i < |s.calls| && Advance(s, t, i)
    ensures t.totalUs == Sum(t.calls, Added) % U64
  {
    assert t.calls == s.calls[i := t.calls[i]];
    SumUpdate(s.calls, i, t.calls[i], Added);
    SumsNonNegative(s);
    if s.calls[i].pc == AddTotal {
      WrapAdd(Sum(s.calls, Added), s.calls[i].us);
    } else {
      assert t.totalUs == s.totalUs;
    }
  }

  lemma AdvanceKeepsMax(s: State, t: State, i: nat)
    requires Invariant(s) && i < |s.calls| && Advance(s, t, i)
    ensures s.maxUs <= t.maxUs < U64
    ensures forall j :: 0 <= j < |t.calls| ==> CallOk(t.calls[j], t.maxUs)
    ensures t.maxUs == 0 || exists j :: 0 <= j < |t.calls| && t.calls[j].us == t.maxUs && LeftLoop(t.calls[j])
  {
    assert CallOk(s.calls[i], s.maxUs);
    forall j | 0 <= j < |t.calls| ensures CallOk(t.calls[j], t.maxUs) {
      assert CallOk(s.calls[j], s.maxUs);
    }
    if t.maxUs != s.maxUs {
      assert t.calls[i].us == t.maxUs && LeftLoop(t.calls[i]);
    } else if s.maxUs != 0 {
      var j :| 0 <= j < |s.calls| && s.calls[j].us == s.maxUs && LeftLoop(s.calls[j]);
      assert t.calls[j].us == t.maxUs && LeftLoop(t.calls[j]);
    }
  }

  lemma AdvanceKeepsRing(s: State, t: State, i: nat)
    requires Invariant(s) && i < |s.calls| && Advance(s, t, i)
    ensures Retains(t.ring, t.pushed)
    ensures forall j :: 0 <= j < |t.pushed| ==> t.pushed[j] <= t.maxUs
  {
    AdvanceKeepsMax(s, t, i);
    if s.calls[i].pc == PushSample {
      assert CallOk(s.calls[i], s.maxUs);
      PushRetains(s.ring, s.pushed, s.calls[i].us);
    } else {
      assert t.ring == s.ring && t.pushed == s.pushed;
    }
  }

  lemma AdvanceKeepsRecorded(s: State, t: State, i: nat, v: nat)
    requires Invariant(s) && i < |s.calls| && Advance(s, t, i)
    ensures multiset(t.pushed)[v] == Sum(t.calls, DoneWith(v))
  {
    assert t.calls == s.calls[i := t.calls[i]];
    SumUpdate(s.calls, i, t.calls[i], DoneWith(v));
    if s.calls[i].pc != PushSample {
      assert t.pushed == s.pushed && t.calls[i].pc != Done;
    }
  }

  lemma NextKeepsInvariant(s: State, t: State)
    requires Invariant(s) && Next(s, t)
    ensures Invariant(t)
  {
    if i: nat :| i < |s.calls| && Advance(s, t, i) {
      AdvanceKeepsCount(s, t, i);
      AdvanceKeepsErrors(s, t, i);
      AdvanceKeepsTotal(s, t, i);
      AdvanceKeepsMax(s, t, i);
      AdvanceKeepsRing(s, t, i);
      forall v: nat ensures multiset(t.pushed)[v] == Sum(t.calls, DoneWith(v)) {
        AdvanceKeepsRecorded(s, t, i, v);
      }
    } else {
      var micros: nat, ok: bool :| Start(s, t, micros, ok);
      StartKeepsInvariant(s, t, micros, ok);
    }
  }

  lemma NextKeepsOrder(s: State, t: State)
    requires Invariant(s) && Next(s, t)
    ensures s.maxUs <= t.maxUs
  {
    if i: nat :| i < |s.calls| && Advance(s, t, i) {
      AdvanceKeepsMax(s, t, i);
    }
  }

  /** Every state of every interleaving satisfies the invariant. */
  lemma {:induction false} RunInvariant(run: seq<State>, i: nat)
    requires IsRun(run) && i < |run|
    ensures Invariant(run[i])
  {
    if i > 0 {
      RunInvariant(run, i - 1);
      NextKeepsInvariant(run[i - 1], run[i]);
    }
  }

  // -------------------------------------------------------- main results

  predicate Quiescent(s: State)
  {
    forall c :: c in s.calls ==> c.pc == Done
  }

  function Us(c: Call): int { c.us }
  function NotOk(c: Call): int { if c.ok then 0 else 1 }

  function Latencies(calls: seq<Call>): seq<nat>
  {
    seq(|calls|, i requires 0 <= i < |calls| => calls[i].us)
  }

  lemma {:induction false} AllDoneSums(calls: seq<Call>)
    requires forall c :: c in calls ==> c.pc == Done
    ensures Sum(calls, Counted) == |calls|
    ensures Sum(calls, Added) == Sum(calls, Us)
    ensures Sum(calls, Failed) == Sum(calls, NotOk)
  {
    if calls != [] {
      AllDoneSums(calls[..|calls| - 1]);
      assert calls[|calls| - 1] in calls;
    }
  }

  lemma {:induction false} AllDoneLatency(calls: seq<Call>, v: nat)
    requires forall c :: c in calls ==> c.pc == Done
    ensures Sum(calls, DoneWith(v)) == multiset(Latencies(calls))[v]
  {
    if calls != [] {
      var n := |calls| - 1;
      AllDoneLatency(calls[..n], v);
      assert Latencies(calls) == Latencies(calls[..n]) + [calls[n].us];
      assert calls[n] in calls;
    }
  }

  /** Once every started call has returned, nothing was lost: the counters are the exact totals
      (modulo 2^64), the maximum is attained and bounds every latency, and the ring holds the last
      4096 entries of an ordering of all the latencies. */
  lemma QuiescentExact(run: seq<State>, i: nat)
    requires IsRun(run) && i < |run| && Quiescent(run[i])
    ensures run[i].count == |run[i].calls| % U64
    ensures run[i].errors == Sum(run[i].calls, NotOk) % U64
    ensures run[i].totalUs == Sum(run[i].calls, Us) % U64
    ensures forall c :: c in run[i].calls ==> c.us <= run[i].maxUs
    ensures run[i].calls == [] ==> run[i].maxUs == 0
    ensures run[i].calls != [] ==> exists c :: c in run[i].calls && c.us == run[i].maxUs
    ensures multiset(run[i].pushed) == multiset(Latencies(run[i].calls))
    ensures Retains(run[i].ring, run[i].pushed)
  {
    var s := run[i];
    RunInvariant(run, i);
    AllDoneSums(s.calls);
    forall v: nat ensures multiset(s.pushed)[v] == multiset(Latencies(s.calls))[v] {
      AllDoneLatency(s.calls, v);
    }
    forall c | c in s.calls ensures c.us <= s.maxUs {
      var j :| 0 <= j < |s.calls| && s.calls[j] == c;
      assert CallOk(s.calls[j], s.maxUs);
    }
    if s.calls != [] {
      assert s.calls[0] in s.calls;
    }
  }

  /** At any moment of any interleaving. */
  lemma InFlightExact(run: seq<State>, i: nat)
    requires IsRun(run) && i < |run|
    ensures run[i].count == Sum(run[i].calls, Counted) % U64
    ensures forall c :: c in run[i].calls && LeftLoop(c) ==> c.us <= run[i].maxUs
    ensures run[i].maxUs == 0 || exists c :: c in run[i].calls && c.us == run[i].maxUs && LeftLoop(c)
    ensures i + 1 < |run| ==> run[i].maxUs <= run[i + 1].maxUs
  {
    var s := run[i];
    RunInvariant(run, i);
    forall c | c in s.calls && LeftLoop(c) ensures c.us <= s.maxUs {
      var j :| 0 <= j < |s.calls| && s.calls[j] == c;
      assert CallOk(s.calls[j], s.maxUs);
    }
    if i + 1 < |run| {
      NextKeepsOrder(s, run[i + 1]);
    }
  }

  lemma FailedAtMostCounted(s: State)
    ensures 0 <= Sum(s.calls, Failed) <= Sum(s.calls, Counted) <= |s.calls|
  {
    SumsNonNegative(s);
    SumPointwise(s.calls, s.calls, Failed, Counted);
    SumAtMost(s.calls, Counted, 1);
  }

  lemma ErrorsAtMostCount(run: seq<State>, i: nat)
    requires IsRun(run) && i < |run| && |run[i].calls| < U64
    ensures run[i].errors <= run[i].count
  {
    RunInvariant(run, i);
    FailedAtMostCounted(run[i]);
  }

  // The counters are 64-bit: after 2^64 calls the count has wrapped to zero and one more recorded
  // failure breaks the bound.

  function Flooded(n: nat): State
  {
    INITIAL.(count := n % U64, calls := seq(n, i => Call(0, false, AddTotal)))
  }

  lemma {:induction false} FloodRun(n: nat) returns (run: seq<State>)
    ensures IsRun(run) && Last(run) == Flooded(n)
  {
    if n == 0 {
      run := [INITIAL];
      assert Flooded(0) == INITIAL;
    } else {
      var before := FloodRun(n - 1);
      var s := Flooded(n - 1);
      var t := s.(calls := s.calls + [Call(0, false, AddCount)]);
      assert Start(s, t, 0, false);
      var u := Flooded(n);
      assert t.calls[n - 1 := Call(0, false, AddTotal)] == u.calls;
      assert Advance(t, u, n - 1);
      run := before + [t, u];
    }
  }

  lemma WrappedRun(n: nat) returns (run: seq<State>)
    requires n == U64
    ensures IsRun(run) && |Last(run).calls| == n
    ensures Last(run).errors > Last(run).count
  {
    var before := FloodRun(n);
    var s := Flooded(n);
    var t := At(s, 0, AddError).(totalUs := (s.totalUs + 0) % U64);
    assert Advance(s, t, 0);
    var u := At(t, 0, LoadMax).(errors := (t.errors + 1) % U64);
    assert Advance(t, u, 0);
    run := before + [t, u];
  }

  /** `errors <= count` holds in every state of every run of up to `limit` calls exactly when
      `limit` stays below 2^64. */
  lemma ErrorsAtMostCountIff(limit: nat)
    ensures limit < U64 <==>
            forall run: seq<State> :: IsRun(run) && |Last(run).calls| <= limit
                          ==> Last(run).errors <= Last(run).count
  {
    if limit < U64 {
      forall run: seq<State> | IsRun(run) && |Last(run).calls| <= limit
        ensures Last(run).errors <= Last(run).count
      {
        ErrorsAtMostCount(run, |run| - 1);
      }
    } else {
      var run := WrappedRun(U64);
    }
  }
}
