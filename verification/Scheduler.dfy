/** The parallel benchmark scheduler and its quota circuit breaker. Tasks are positions in the
    selected list; the environment chooses which in-flight futures complete and with what result. */
module Scheduler {
  import opened Sequences
  import opened QuotaStreak

  const QUOTA_BREAKER_LIMIT: nat := 8
  const QUOTA_BREAKER_EXIT: int := 3

  datatype Event = Start(task: nat) | Finish(task: nat) | Trip

  // ------------------------------------------------------------ the log

  function Started(log: seq<Event>): nat
  {
    if log == [] then 0
    else Started(log[..|log| - 1]) + if log[|log| - 1].Start? then 1 else 0
  }

  function Finished(log: seq<Event>): seq<nat>
  {
    if log == [] then []
    else
      var last := log[|log| - 1];
      Finished(log[..|log| - 1]) + if last.Finish? then [last.task] else []
  }

  predicate Tripped(log: seq<Event>) { Trip in log }

  function InFlight(log: seq<Event>): int { Started(log) - |Finished(log)| }

  /** What the scheduler may do next: start the first unstarted task of the list if a worker is free
      and the breaker has not tripped, take the result of a task in flight, or trip once. */
  ghost predicate Allowed(log: seq<Event>, e: Event, tasks: nat, workers: nat)
  {
    match e
    case Start(t) => t == Started(log) < tasks && InFlight(log) < workers && !Tripped(log)
    case Finish(t) => t < Started(log) && t !in Finished(log)
    case Trip => !Tripped(log)
  }

  ghost predicate Legal(log: seq<Event>, tasks: nat, workers: nat)
  {
    forall i :: 0 <= i < |log| ==> Allowed(log[..i], log[i], tasks, workers)
  }

  lemma LegalAppend(log: seq<Event>, e: Event, tasks: nat, workers: nat)
    requires Legal(log, tasks, workers) && Allowed(log, e, tasks, workers)
    ensures Legal(log + [e], tasks, workers)
  {
    var next := log + [e];
    forall i | 0 <= i < |next| ensures Allowed(next[..i], next[i], tasks, workers) {
      assert next[..i] == log[..i];
      assert log[..|log|] == log;
    }
  }

  lemma StartedAppend(log: seq<Event>, e: Event)
    ensures Started(log + [e]) == Started(log) + if e.Start? then 1 else 0
    ensures Finished(log + [e]) == Finished(log) + if e.Finish? then [e.task] else []
    ensures Tripped(log + [e]) <==> Tripped(log) || e.Trip?
  {
    assert (log + [e])[..|log|] == log;
  }

  lemma {:induction false} StartedOnlyBelow(log: seq<Event>, tasks: nat, workers: nat, t: nat)
    requires Legal(log, tasks, workers)
    ensures Start(t) in log <==> t < Started(log)
  {
    if log != [] {
      var n := |log| - 1;
      LegalPrefix(log, n, tasks, workers);
      StartedOnlyBelow(log[..n], tasks, workers, t);
      assert log == log[..n] + [log[n]];
      assert Allowed(log[..n], log[n], tasks, workers);
    }
  }

  lemma LegalPrefix(log: seq<Event>, k: nat, tasks: nat, workers: nat)
    requires Legal(log, tasks, workers) && k <= |log|
    ensures Legal(log[..k], tasks, workers)
  {
    forall i | 0 <= i < k ensures Allowed(log[..k][..i], log[..k][i], tasks, workers) {
      assert log[..k][..i] == log[..i];
    }
  }

  lemma {:induction false} LegalFinishes(log: seq<Event>, tasks: nat, workers: nat)
    requires Legal(log, tasks, workers)
    ensures Distinct(Finished(log)) && InRange(Finished(log), Started(log)) && Started(log) <= tasks
  {
    if log != [] {
      var n := |log| - 1;
      LegalPrefix(log, n, tasks, workers);
      LegalFinishes(log[..n], tasks, workers);
      assert Allowed(log[..n], log[n], tasks, workers);
    }
  }

  ghost predicate InRange(ts: seq<nat>, n: nat)
  {
    forall i :: 0 <= i < |ts| ==> ts[i] < n
  }

  lemma {:induction false} DistinctBelow(ts: seq<nat>, n: nat)
    requires Distinct(ts) && InRange(ts, n)
    ensures |ts| <= n
    ensures |ts| == n ==> forall t: nat :: t < n ==> t in ts
    decreases n
  {
    if ts != [] {
      assert ts[0] < n;
    }
    if n > 0 {
      if i :| 0 <= i < |ts| && ts[i] == n - 1 {
        var rest := Without(ts, i);
        DistinctBelow(rest, n - 1);
        forall t | t in rest ensures t in ts {
          assert t in ts[..i] || t in ts[i + 1..];
        }
      } else {
        DistinctBelow(ts, n - 1);
      }
    }
  }

  lemma {:induction false} LegalBounds(log: seq<Event>, tasks: nat, workers: nat)
    requires Legal(log, tasks, workers)
    ensures 0 <= InFlight(log) <= workers && Started(log) <= tasks
  {
    LegalFinishes(log, tasks, workers);
    DistinctBelow(Finished(log), Started(log));
    if log != [] {
      var n := |log| - 1;
      LegalPrefix(log, n, tasks, workers);
      LegalBounds(log[..n], tasks, workers);
      assert Allowed(log[..n], log[n], tasks, workers);
    }
  }

  lemma {:induction false} FinishedIff(log: seq<Event>, t: nat)
    ensures t in Finished(log) <==> Finish(t) in log
  {
    if log != [] {
      FinishedIff(log[..|log| - 1], t);
      assert log == log[..|log| - 1] + [log[|log| - 1]];
    }
  }

  /** Safety of every moment of a legal run: at most `workers` tasks are in flight, tasks start in
      list order and at most once, none starts after the breaker tripped, and no result is taken
      twice or before its start. */
  lemma LegalRunSafety(log: seq<Event>, tasks: nat, workers: nat)
    requires Legal(log, tasks, workers)
    ensures forall k :: 0 <= k <= |log| ==> 0 <= InFlight(log[..k]) <= workers
    ensures forall i, j :: 0 <= i < j < |log| && log[i].Start? && log[j].Start? ==> log[i].task < log[j].task
    ensures forall i, j :: 0 <= i < j < |log| && log[i].Trip? ==> !log[j].Start? && !log[j].Trip?
    ensures forall i, j :: 0 <= i < j < |log| && log[i].Finish? ==> log[i] != log[j]
    ensures forall j :: 0 <= j < |log| && log[j].Finish? ==> Start(log[j].task) in log[..j]
  {
    forall k | 0 <= k <= |log| ensures 0 <= InFlight(log[..k]) <= workers {
      LegalPrefix(log, k, tasks, workers);
      LegalBounds(log[..k], tasks, workers);
    }
    forall j | 0 <= j < |log|
      ensures forall i :: 0 <= i < j && log[i].Start? && log[j].Start? ==> log[i].task < log[j].task
      ensures forall i :: 0 <= i < j && log[i].Trip? ==> !log[j].Start? && !log[j].Trip?
      ensures forall i :: 0 <= i < j && log[i].Finish? ==> log[i] != log[j]
      ensures log[j].Finish? ==> Start(log[j].task) in log[..j]
    {
      LegalPrefix(log, j, tasks, workers);
      assert Allowed(log[..j], log[j], tasks, workers);
      forall i | 0 <= i < j ensures log[i] in log[..j] {
        assert log[..j][i] == log[i];
      }
      forall i | 0 <= i < j && log[i].Start? ensures log[i].task < Started(log[..j]) {
        StartedOnlyBelow(log[..j], tasks, workers, log[i].task);
      }
      if log[j].Finish? {
        FinishedIff(log[..j], log[j].task);
        StartedOnlyBelow(log[..j], tasks, workers, log[j].task);
      }
    }
  }

  // -------------------------------------------------------- the breaker

  /** What each task's worker leaves behind: its exit code and its results file. */
  datatype Outcome = Outcome(rc: int, file: Option<seq<Sessions>>)

  function Files(done: seq<nat>, outcomes: seq<Outcome>): seq<Option<seq<Sessions>>>
    requires InRange(done, |outcomes|)
  {
    seq(|done|, i requires 0 <= i < |done| => outcomes[done[i]].file)
  }

  /** Result k of the finished tasks calls for the breaker: its worker tripped its own, or the
      trailing run of quota errors over all sessions read so far reaches the limit. */
  ghost predicate Trips(done: seq<nat>, outcomes: seq<Outcome>, k: nat)
    requires k < |done| && InRange(done, |outcomes|)
  {
    || outcomes[done[k]].rc == QUOTA_BREAKER_EXIT
    || TrailingErrors(SessionStream(Files(done[..k + 1], outcomes))) >= QUOTA_BREAKER_LIMIT
  }

  ghost predicate ShouldTrip(done: seq<nat>, outcomes: seq<Outcome>)
    requires InRange(done, |outcomes|)
  {
    exists k :: 0 <= k < |done| && Trips(done, outcomes, k)
  }

  lemma ShouldTripAppend(done: seq<nat>, outcomes: seq<Outcome>, t: nat)
    requires InRange(done, |outcomes|) && t < |outcomes|
    ensures InRange(done + [t], |outcomes|)
    ensures ShouldTrip(done + [t], outcomes)
       <==> ShouldTrip(done, outcomes) || Trips(done + [t], outcomes, |done|)
  {
    var next := done + [t];
    forall k | 0 <= k < |done| ensures Trips(next, outcomes, k) <==> Trips(done, outcomes, k) {
      assert next[..k + 1] == done[..k + 1];
    }
    if ShouldTrip(next, outcomes) && !Trips(next, outcomes, |done|) {
      var k :| 0 <= k < |next| && Trips(next, outcomes, k);
      assert Trips(done, outcomes, k);
    }
    if ShouldTrip(done, outcomes) {
      var k :| 0 <= k < |done| && Trips(done, outcomes, k);
      assert Trips(next, outcomes, k);
    }
  }

  // ------------------------------------------------------- the scheduler

  /** The contract of waiting for the first completion: some of the pending futures, each once. */
  ghost predicate WaitsForFirst(wait: (nat, set<nat>) -> seq<nat>)
  {
    forall round: nat, pending: set<nat> | pending != {} ::
      var batch := wait(round, pending);
      batch != [] && Distinct(batch) && forall t :: t in batch ==> t in pending
  }

  /** The scheduler's variables, with the log of what it did so far. */
  datatype Pool = Pool(
    pending: set<nat>, submitted: nat, done: nat, failures: seq<nat>, tripped: bool, streak: nat,
    log: seq<Event>)

  /** The variables count what the log says. */
  ghost predicate Counted(s: Pool)
  {
    && s.submitted == Started(s.log) && s.done == |Finished(s.log)|
    && (forall t: nat :: t in s.pending <==> t < s.submitted && t !in Finished(s.log))
    && |s.pending| == s.submitted - s.done
    && (s.tripped <==> Tripped(s.log))
  }

  ghost predicate PoolOk(s: Pool, tasks: nat, workers: nat)
  {
    Legal(s.log, tasks, workers) && Counted(s)
  }

  /** Every free worker is busy unless the list is exhausted; once the breaker trips nothing more is
      submitted. */
  ghost predicate Saturated(s: Pool, tasks: nat, workers: nat)
  {
    s.tripped || s.submitted == Min(tasks, s.done + workers)
  }

  ghost predicate Failing(done: seq<nat>, outcomes: seq<Outcome>)
  {
    exists i :: 0 <= i < |done| && done[i] < |outcomes| && outcomes[done[i]].rc != 0
  }

  ghost predicate BreakerOk(s: Pool, outcomes: seq<Outcome>)
  {
    && InRange(Finished(s.log), |outcomes|)
    && (s.tripped <==> ShouldTrip(Finished(s.log), outcomes))
    && (!s.tripped ==> s.streak == FoldFiles(Files(Finished(s.log), outcomes)))
    && (s.failures != [] <==> Failing(Finished(s.log), outcomes))
  }

  lemma NextIsUnfinished(log: seq<Event>, tasks: nat, workers: nat)
    requires Legal(log, tasks, workers)
    ensures Started(log) !in Finished(log) && Started(log) <= tasks
  {
    LegalFinishes(log, tasks, workers);
  }

  function StartNext(s: Pool): Pool
  {
    s.(pending := s.pending + {s.submitted}, submitted := s.submitted + 1, log := s.log + [Start(s.submitted)])
  }

  lemma {:induction false} StartCounts(s: Pool)
    requires Counted(s) && s.submitted !in Finished(s.log)
    ensures Counted(StartNext(s)) && Finished(StartNext(s).log) == Finished(s.log)
  {
    StartedAppend(s.log, Start(s.submitted));
    assert Finished(s.log) + [] == Finished(s.log);
    assert s.submitted !in s.pending;
  }

  lemma {:induction false} StartKeepsPool(s: Pool, tasks: nat, workers: nat)
    requires PoolOk(s, tasks, workers) && !s.tripped
    requires s.submitted - s.done < workers && s.submitted < tasks
    ensures PoolOk(StartNext(s), tasks, workers) && Finished(StartNext(s).log) == Finished(s.log)
  {
    NextIsUnfinished(s.log, tasks, workers);
    LegalAppend(s.log, Start(s.submitted), tasks, workers);
    StartCounts(s);
  }

  method SubmitNext(s: Pool, tasks: nat, ghost workers: nat) returns (s': Pool)
    requires PoolOk(s, tasks, workers) && !s.tripped && s.submitted - s.done < workers
    ensures PoolOk(s', tasks, workers)
    ensures s' == s.(pending := s'.pending, submitted := s'.submitted, log := s'.log)
    ensures s.pending <= s'.pending
    ensures s'.submitted == Min(s.submitted + 1, tasks) && Finished(s'.log) == Finished(s.log)
  {
    NextIsUnfinished(s.log, tasks, workers);
    if s.submitted >= tasks {
      return s;
    }
    StartKeepsPool(s, tasks, workers);
    s' := StartNext(s);
  }

  method TakeResult(s: Pool, t: nat, tasks: nat, ghost workers: nat) returns (s': Pool)
    requires PoolOk(s, tasks, workers) && t in s.pending
    ensures PoolOk(s', tasks, workers)
    ensures s' == s.(pending := s.pending - {t}, done := s.done + 1, log := s.log + [Finish(t)])
    ensures Finished(s'.log) == Finished(s.log) + [t] && s'.submitted == s.submitted
  {
    LegalAppend(s.log, Finish(t), tasks, workers);
    StartedAppend(s.log, Finish(t));
    s' := s.(pending := s.pending - {t}, done := s.done + 1, log := s.log + [Finish(t)]);
  }

  function FoldFile(streak: nat, file: Option<seq<Sessions>>): nat
  {
    if file.None? then streak else Fold(streak, Concat(FixedStreams(file.value)))
  }

  /** A worker's own breaker exit trips the breaker at once; otherwise, while it is untripped, the
      worker's results file is folded into the streak. */
  method JudgeResult(outcome: Outcome, tripped: bool, streak: nat) returns (tripped': bool, streak': nat)
    ensures tripped' <==> tripped || outcome.rc == QUOTA_BREAKER_EXIT
                          || FoldFile(streak, outcome.file) >= QUOTA_BREAKER_LIMIT
    ensures !tripped' ==> streak' == FoldFile(streak, outcome.file)
  {
    tripped', streak' := tripped, streak;
    if outcome.rc == QUOTA_BREAKER_EXIT {
      tripped' := true;
    } else if !tripped {
      streak' := CountConsecutive(outcome.file, streak);
      if streak' >= QUOTA_BREAKER_LIMIT {
        tripped' := true;
      }
    }
  }

  lemma FilesAppend(done: seq<nat>, outcomes: seq<Outcome>, t: nat)
    requires InRange(done, |outcomes|) && t < |outcomes|
    ensures InRange(done + [t], |outcomes|)
    ensures FoldFiles(Files(done + [t], outcomes)) == FoldFile(FoldFiles(Files(done, outcomes)), outcomes[t].file)
  {
    assert Files(done + [t], outcomes)[..|done|] == Files(done, outcomes);
  }

  /** The judgement on one more result is the declarative breaker condition on one more result. */
  lemma JudgedIsDue(done: seq<nat>, outcomes: seq<Outcome>, t: nat, tripped: bool, streak: nat)
    requires InRange(done, |outcomes|) && t < |outcomes|
    requires tripped <==> ShouldTrip(done, outcomes)
    requires !tripped ==> streak == FoldFiles(Files(done, outcomes))
    ensures InRange(done + [t], |outcomes|)
    ensures !tripped ==> FoldFiles(Files(done + [t], outcomes)) == FoldFile(streak, outcomes[t].file)
    ensures ShouldTrip(done + [t], outcomes)
       <==> tripped || outcomes[t].rc == QUOTA_BREAKER_EXIT || FoldFile(streak, outcomes[t].file) >= QUOTA_BREAKER_LIMIT
  {
    ShouldTripAppend(done, outcomes, t);
    FilesAppend(done, outcomes, t);
    assert (done + [t])[..|done| + 1] == done + [t];
    StreakIsTrailingRun(Files(done + [t], outcomes));
  }

  lemma FailingAppend(done: seq<nat>, outcomes: seq<Outcome>, t: nat)
    requires t < |outcomes|
    ensures Failing(done + [t], outcomes) <==> Failing(done, outcomes) || outcomes[t].rc != 0
  {
    var next := done + [t];
    assert next[|done|] == t;
    if i :| 0 <= i < |done| && done[i] < |outcomes| && outcomes[done[i]].rc != 0 {
      assert next[i] == done[i];
    }
  }

  lemma {:induction false} TripCounts(s: Pool)
    requires Counted(s)
    ensures Counted(s.(tripped := true, log := s.log + [Trip])) && Finished(s.log + [Trip]) == Finished(s.log)
  {
    StartedAppend(s.log, Trip);
    assert Finished(s.log) + [] == Finished(s.log);
  }

  lemma {:induction false} TripKeepsPool(s: Pool, tasks: nat, workers: nat)
    requires PoolOk(s, tasks, workers) && !s.tripped
    ensures PoolOk(s.(tripped := true, log := s.log + [Trip]), tasks, workers)
    ensures Finished(s.log + [Trip]) == Finished(s.log)
  {
    LegalAppend(s.log, Trip, tasks, workers);
    TripCounts(s);
  }

  /** Records one completed future: its failure, and the breaker if its result calls for it. */
  method Record(s: Pool, t: nat, outcomes: seq<Outcome>, tasks: nat, ghost workers: nat) returns (s': Pool)
    requires PoolOk(s, tasks, workers) && BreakerOk(s, outcomes)
    requires t in s.pending && t < |outcomes|
    ensures PoolOk(s', tasks, workers) && BreakerOk(s', outcomes)
    ensures s'.done == s.done + 1 && s'.submitted == s.submitted && s'.pending == s.pending - {t}
    ensures s.tripped ==> s'.tripped
  {
    FailingAppend(Finished(s.log), outcomes, t);
    JudgedIsDue(Finished(s.log), outcomes, t, s.tripped, s.streak);
    var tripped, streak := JudgeResult(outcomes[t], s.tripped, s.streak);
    s' := TakeResult(s, t, tasks, workers);
    s' := s'.(streak := streak, failures := if outcomes[t].rc != 0 then s.failures + [t] else s.failures);
    if tripped && !s.tripped {
      TripKeepsPool(s', tasks, workers);
      s' := s'.(tripped := true, log := s'.log + [Trip]);
    }
  }

  /** One completed future: record it and, unless the breaker tripped, submit the next task. */
  method Complete(s: Pool, t: nat, outcomes: seq<Outcome>, tasks: nat, ghost workers: nat) returns (s': Pool)
    requires PoolOk(s, tasks, workers) && BreakerOk(s, outcomes) && Saturated(s, tasks, workers)
    requires t in s.pending && |outcomes| == tasks
    ensures PoolOk(s', tasks, workers) && BreakerOk(s', outcomes) && Saturated(s', tasks, workers)
    ensures s'.done == s.done + 1 && forall u :: u in s.pending && u != t ==> u in s'.pending
  {
    LegalBounds(s.log, tasks, workers);
    s' := Record(s, t, outcomes, tasks, workers);
    if !s'.tripped {
      s' := SubmitNext(s', tasks, workers);
    }
  }

  lemma DrainedIsFinished(s: Pool, tasks: nat, workers: nat)
    requires PoolOk(s, tasks, workers) && Saturated(s, tasks, workers) && 0 < workers
    requires s.pending == {} && !s.tripped
    ensures forall t: nat :: t < tasks ==> t in Finished(s.log)
  {
    LegalFinishes(s.log, tasks, workers);
    forall t: nat | t < s.submitted ensures t in Finished(s.log) {
      assert t !in s.pending;
    }
    CoversBelow(Finished(s.log), s.submitted);
  }

  lemma {:induction false} CoversBelow(ts: seq<nat>, n: nat)
    requires forall t: nat :: t < n ==> t in ts
    ensures |ts| >= n
  {
    if n > 0 {
      assert n - 1 in ts;
      var i :| 0 <= i < |ts| && ts[i] == n - 1;
      forall t: nat | t < n - 1 ensures t in Without(ts, i) {
        assert t in ts;
        var j :| 0 <= j < |ts| && ts[j] == t;
        assert Without(ts, i)[if j < i then j else j - 1] == t;
      }
      CoversBelow(Without(ts, i), n - 1);
    }
  }

  ghost predicate AllReturnedZero(outcomes: seq<Outcome>)
  {
    forall t :: 0 <= t < |outcomes| ==> outcomes[t].rc == 0
  }

  lemma FailingIffNonzero(done: seq<nat>, outcomes: seq<Outcome>)
    requires InRange(done, |outcomes|) && forall t: nat :: t < |outcomes| ==> t in done
    ensures Failing(done, outcomes) <==> !AllReturnedZero(outcomes)
  {
    if !AllReturnedZero(outcomes) {
      var t :| 0 <= t < |outcomes| && outcomes[t].rc != 0;
      assert t in done;
      var i :| 0 <= i < |done| && done[i] == t;
    }
  }

  const NO_POOL := Pool({}, 0, 0, [], false, 0, [])

  lemma {:induction false} NothingCounted()
    ensures Counted(NO_POOL) && Finished(NO_POOL.log) == [] && NO_POOL.log == []
  {
  }

  lemma {:induction false} NothingDue(outcomes: seq<Outcome>)
    ensures InRange([], |outcomes|) && !ShouldTrip([], outcomes)
      && FoldFiles(Files([], outcomes)) == 0 && !Failing([], outcomes)
  {
  }

  lemma {:induction false} NothingLegal(tasks: nat, workers: nat)
    ensures Legal([], tasks, workers)
  {
  }

  lemma {:induction false} BreakerStays(s: Pool, s': Pool, outcomes: seq<Outcome>)
    requires BreakerOk(s, outcomes) && Finished(s'.log) == Finished(s.log)
    requires s'.tripped == s.tripped && s'.streak == s.streak && s'.failures == s.failures
    ensures BreakerOk(s', outcomes)
  {
  }

  method EmptyPool(ghost outcomes: seq<Outcome>, ghost tasks: nat, ghost workers: nat) returns (s: Pool)
    ensures PoolOk(s, tasks, workers) && BreakerOk(s, outcomes) && !s.tripped && s.submitted == s.done == 0
  {
    NothingCounted();
    NothingDue(outcomes);
    NothingLegal(tasks, workers);
    s := NO_POOL;
  }

  /** Fills the workers. */
  method StartAll(outcomes: seq<Outcome>, tasks: nat, workers: nat) returns (s: Pool)
    requires 0 < workers <= tasks && |outcomes| == tasks
    ensures PoolOk(s, tasks, workers) && BreakerOk(s, outcomes) && Saturated(s, tasks, workers) && s.done == 0
  {
    s := EmptyPool(outcomes, tasks, workers);
    for w := 0 to workers
      invariant PoolOk(s, tasks, workers) && BreakerOk(s, outcomes) && !s.tripped && s.submitted == w && s.done == 0
    {
      var next := SubmitNext(s, tasks, workers);
      BreakerStays(s, next, outcomes);
      s := next;
    }
  }

  /** Handles all futures one wait returned. */
  method CompleteBatch(s: Pool, batch: seq<nat>, outcomes: seq<Outcome>, tasks: nat, ghost workers: nat)
    returns (s': Pool)
    requires PoolOk(s, tasks, workers) && BreakerOk(s, outcomes) && Saturated(s, tasks, workers) && |outcomes| == tasks
    requires Distinct(batch) && forall t :: t in batch ==> t in s.pending
    ensures PoolOk(s', tasks, workers) && BreakerOk(s', outcomes) && Saturated(s', tasks, workers)
    ensures s'.done == s.done + |batch|
  {
    s' := s;
    for b := 0 to |batch|
      invariant PoolOk(s', tasks, workers) && BreakerOk(s', outcomes) && Saturated(s', tasks, workers)
      invariant forall i :: b <= i < |batch| ==> batch[i] in s'.pending
      invariant s'.done == s.done + b
    {
      s' := Complete(s', batch[b], outcomes, tasks, workers);
    }
  }

  lemma {:induction false} DoneAtMostTasks(s: Pool, tasks: nat, workers: nat)
    requires PoolOk(s, tasks, workers)
    ensures s.done <= tasks
  {
    LegalBounds(s.log, tasks, workers);
  }

  /** The whole run. A pool of no workers is refused; otherwise the log is legal, the breaker trips
      exactly when some result calls for it, and without it the run ends with every task done. The
      exit status is 3 exactly when the breaker tripped and 0 exactly when it did not and every task
      returned 0. */
  method RunParallelBench(tasks: nat, parallel: int, outcomes: seq<Outcome>, wait: (nat, set<nat>) -> seq<nat>)
    returns (exit: Option<int>, log: seq<Event>)
    requires |outcomes| == tasks && WaitsForFirst(wait)
    ensures exit.None? <==> Min(parallel, tasks) <= 0
    ensures exit.None? ==> log == []
    ensures exit.Some? ==> Legal(log, tasks, Min(parallel, tasks)) && InRange(Finished(log), tasks)
    ensures exit.Some? ==> (Tripped(log) <==> ShouldTrip(Finished(log), outcomes))
    ensures exit.Some? && !Tripped(log) ==> forall t: nat :: t < tasks ==> t in Finished(log)
    ensures exit == Some(QUOTA_BREAKER_EXIT) <==> Tripped(log)
    ensures exit == Some(0) <==> exit.Some? && !Tripped(log) && AllReturnedZero(outcomes)
    ensures exit.Some? ==> exit.value in {0, 1, QUOTA_BREAKER_EXIT}
  {
    log := [];
    var workers := Min(parallel, tasks);
    if workers <= 0 {
      return None, [];
    }
    var s := StartAll(outcomes, tasks, workers);
    var round := 0;
    while s.pending != {} && !s.tripped
      invariant PoolOk(s, tasks, workers) && BreakerOk(s, outcomes) && Saturated(s, tasks, workers)
      invariant s.done <= tasks
      decreases tasks - s.done
    {
      var batch := wait(round, s.pending);
      round := round + 1;
      s := CompleteBatch(s, batch, outcomes, tasks, workers);
      DoneAtMostTasks(s, tasks, workers);
    }
    log := s.log;
    if !s.tripped {
      DrainedIsFinished(s, tasks, workers);
      FailingIffNonzero(Finished(s.log), outcomes);
    }
    exit := Some(if s.tripped then QUOTA_BREAKER_EXIT else if s.failures != [] then 1 else 0);
  }
}
