/** The quota-error streak, counted by the orchestrator in its fixed agent order and by each
    benchmark process in the hash-permuted order in which it ran the agents. */
module QuotaStreak {
  import opened Sequences

  datatype Agent = Grep | GreppyAgent | Plus | Gemma | ExplorerAgent

  /** The benchmark process exits as soon as its own count reaches this. */
  const RUN_BREAKER_LIMIT: nat := 8

  const AGENT_RUN_ORDER: seq<Agent> := [Grep, GreppyAgent, Plus, Gemma, ExplorerAgent]

  /** The sessions one task recorded; true marks a rate-limit or quota error. */
  type Sessions = map<Agent, bool>

  /** The sessions of one task in a given agent order; absent agents are skipped. */
  function Stream(row: Sessions, order: seq<Agent>): seq<bool>
  {
    if order == [] then []
    else
      var agent := order[|order| - 1];
      Stream(row, order[..|order| - 1]) + if agent in row then [row[agent]] else []
  }

  function TrailingErrors(stream: seq<bool>): nat
  {
    if stream == [] || !stream[|stream| - 1] then 0 else 1 + TrailingErrors(stream[..|stream| - 1])
  }

  function Concat(blocks: seq<seq<bool>>): seq<bool>
  {
    if blocks == [] then [] else Concat(blocks[..|blocks| - 1]) + blocks[|blocks| - 1]
  }

  function StreamsIn(rows: seq<Sessions>, order: seq<Agent>): (blocks: seq<seq<bool>>)
  {
    seq(|rows|, i requires 0 <= i < |rows| => Stream(rows[i], order))
  }

  function FixedStreams(rows: seq<Sessions>): seq<seq<bool>>
  {
    StreamsIn(rows, AGENT_RUN_ORDER)
  }

  lemma StreamStep(row: Sessions, order: seq<Agent>, a: nat, streak: nat)
    requires a < |order|
    ensures var before := Fold(streak, Stream(row, order[..a]));
            Fold(streak, Stream(row, order[..a + 1]))
            == if order[a] !in row then before else if row[order[a]] then before + 1 else 0
  {
    assert order[..a + 1][..a] == order[..a];
    var front := Stream(row, order[..a]);
    if order[a] in row {
      assert (front + [row[order[a]]])[..|front|] == front;
    } else {
      assert front + [] == front;
    }
  }

  lemma {:induction false} TrailingAppend(stream: seq<bool>, block: seq<bool>)
    ensures TrailingErrors(stream + block)
         == if TrailingErrors(block) == |block| then TrailingErrors(stream) + |block|
            else TrailingErrors(block)
    ensures TrailingErrors(block) <= |block|
  {
    if block == [] {
      assert stream + block == stream;
    } else {
      var n := |block| - 1;
      assert (stream + block)[..|stream| + n] == stream + block[..n];
      TrailingAppend(stream, block[..n]);
    }
  }

  /** The running count after `stream` when it stood at `streak` before. */
  function Fold(streak: nat, stream: seq<bool>): nat
  {
    if stream == [] then streak
    else if stream[|stream| - 1] then Fold(streak, stream[..|stream| - 1]) + 1
    else 0
  }

  lemma {:induction false} FoldConcat(streak: nat, a: seq<bool>, b: seq<bool>)
    ensures Fold(streak, a + b) == Fold(Fold(streak, a), b)
  {
    if b == [] {
      assert a + b == a;
    } else {
      assert (a + b)[..|a| + |b| - 1] == a + b[..|b| - 1];
      FoldConcat(streak, a, b[..|b| - 1]);
    }
  }

  /** The orchestrator's fold over one finished worker's results: an unreadable file leaves the
      count alone, an error adds one, any healthy session resets it. */
  method CountConsecutive(file: Option<seq<Sessions>>, consecutive: nat) returns (streak: nat)
    ensures file.None? ==> streak == consecutive
    ensures file.Some? ==> streak == Fold(consecutive, Concat(FixedStreams(file.value)))
  {
    streak := consecutive;
    if file.None? {
      return;
    }
    var rows := file.value;
    for r := 0 to |rows|
      invariant streak == Fold(consecutive, Concat(FixedStreams(rows[..r])))
    {
      ghost var rowStart := streak;
      for a := 0 to |AGENT_RUN_ORDER|
        invariant streak == Fold(rowStart, Stream(rows[r], AGENT_RUN_ORDER[..a]))
      {
        StreamStep(rows[r], AGENT_RUN_ORDER, a, rowStart);
        var agent := AGENT_RUN_ORDER[a];
        if agent in rows[r] {
          streak := if rows[r][agent] then streak + 1 else 0;
        }
      }
      assert AGENT_RUN_ORDER[..|AGENT_RUN_ORDER|] == AGENT_RUN_ORDER;
      assert FixedStreams(rows[..r + 1])[..r] == FixedStreams(rows[..r]);
      FoldConcat(consecutive, Concat(FixedStreams(rows[..r])), Stream(rows[r], AGENT_RUN_ORDER));
    }
    assert rows[..|rows|] == rows;
  }

  /** The count over every file folded so far. */
  function FoldFiles(files: seq<Option<seq<Sessions>>>): nat
  {
    if files == [] then 0
    else
      var last := files[|files| - 1];
      var before := FoldFiles(files[..|files| - 1]);
      if last.None? then before else Fold(before, Concat(FixedStreams(last.value)))
  }

  /** The sessions of all readable files, one after the other. */
  function SessionStream(files: seq<Option<seq<Sessions>>>): seq<bool>
  {
    if files == [] then []
    else
      var last := files[|files| - 1];
      SessionStream(files[..|files| - 1])
      + if last.None? then [] else Concat(FixedStreams(last.value))
  }

  lemma {:induction false} FoldIsTrailing(stream: seq<bool>)
    ensures Fold(0, stream) == TrailingErrors(stream)
  {
    if stream != [] {
      FoldIsTrailing(stream[..|stream| - 1]);
    }
  }

  /** Across all finished workers the count is the trailing error run of the whole stream. */
  lemma {:induction false} StreakIsTrailingRun(files: seq<Option<seq<Sessions>>>)
    ensures FoldFiles(files) == TrailingErrors(SessionStream(files))
  {
    FoldIsTrailing(SessionStream(files));
    if files != [] {
      var n := |files| - 1;
      StreakIsTrailingRun(files[..n]);
      FoldIsTrailing(SessionStream(files[..n]));
      if files[n].Some? {
        FoldConcat(0, SessionStream(files[..n]), Concat(FixedStreams(files[n].value)));
      } else {
        assert SessionStream(files) == SessionStream(files[..n]);
      }
    }
  }

  // ------------------------------------------------ order-induced drift

  lemma {:induction false} AllErrors(block: seq<bool>)
    ensures TrailingErrors(block) == |block| <==> false !in block
    ensures TrailingErrors(block) <= |block|
  {
    if block != [] {
      var n := |block| - 1;
      AllErrors(block[..n]);
      assert block == block[..n] + [block[n]];
    }
  }

  function Abs(x: int): nat { if x < 0 then -x else x }

  /** Equally many sessions, and a healthy one in both or in neither: so it is after a reordering. */
  predicate AlikeBlocks(a: seq<bool>, b: seq<bool>)
  {
    |a| == |b| && (false in a <==> false in b)
  }

  lemma {:induction false} ReorderedAlike(a: seq<bool>, b: seq<bool>)
    requires multiset(a) == multiset(b)
    ensures AlikeBlocks(a, b)
  {
    assert |multiset(a)| == |a| && |multiset(b)| == |b|;
    assert false in multiset(a) <==> false in multiset(b);
  }

  /** Alike task by task, with at most `width` sessions each. */
  ghost predicate Alike(a: seq<seq<bool>>, b: seq<seq<bool>>, width: nat)
  {
    |a| == |b| && forall i :: 0 <= i < |a| ==> AlikeBlocks(a[i], b[i]) && |a[i]| <= width
  }

  /** One more task: a task with a healthy session forgets the streak before it, and one without adds
      the same to both. */
  lemma {:induction false} BlockDrift(before: seq<bool>, other: seq<bool>, a: seq<bool>, b: seq<bool>, width: nat)
    requires AlikeBlocks(a, b) && |a| <= width && width > 0
    requires Abs(TrailingErrors(before) - TrailingErrors(other)) <= width - 1
    ensures Abs(TrailingErrors(before + a) - TrailingErrors(other + b)) <= width - 1
  {
    AllErrors(a);
    AllErrors(b);
    TrailingAppend(before, a);
    TrailingAppend(other, b);
  }

  /** Reordering the sessions inside each task moves the streak by less than one task. */
  lemma {:induction false} ReorderingDrift(a: seq<seq<bool>>, b: seq<seq<bool>>, width: nat)
    requires Alike(a, b, width) && width > 0
    ensures Abs(TrailingErrors(Concat(a)) - TrailingErrors(Concat(b))) <= width - 1
  {
    if a != [] {
      var n := |a| - 1;
      ReorderingDrift(a[..n], b[..n], width);
      BlockDrift(Concat(a[..n]), Concat(b[..n]), a[n], b[n], width);
    }
  }

  function AgentIn(row: Sessions, v: bool): Agent -> int
  {
    (agent: Agent) => if agent in row && row[agent] == v then 1 else 0
  }

  lemma {:induction false} StreamCounts(row: Sessions, order: seq<Agent>, v: bool)
    ensures multiset(Stream(row, order))[v] == Sum(order, AgentIn(row, v))
    ensures |Stream(row, order)| <= |order|
  {
    if order != [] {
      StreamCounts(row, order[..|order| - 1], v);
    }
  }

  lemma StreamPermutation(row: Sessions, order: seq<Agent>, other: seq<Agent>)
    requires multiset(order) == multiset(other)
    ensures multiset(Stream(row, order)) == multiset(Stream(row, other))
  {
    forall v: bool ensures multiset(Stream(row, order))[v] == multiset(Stream(row, other))[v] {
      StreamCounts(row, order, v);
      StreamCounts(row, other, v);
      SumPermutation(order, other, AgentIn(row, v));
    }
  }

  function OrderedStreams(rows: seq<Sessions>, orders: seq<seq<Agent>>): (blocks: seq<seq<bool>>)
    requires |rows| == |orders|
  {
    seq(|rows|, i requires 0 <= i < |rows| => Stream(rows[i], orders[i]))
  }

  ghost predicate Permutes(a: seq<Agent>, b: seq<Agent>) { multiset(a) == multiset(b) }

  /** One task of up to `agents` sessions, taken in a permutation of the fixed order. */
  ghost predicate TaskInOrder(row: Sessions, order: seq<Agent>, taken: seq<Agent>, agents: nat)
  {
    Permutes(order, taken) && |Stream(row, order)| <= agents
  }

  ghost predicate TasksInOrder(rows: seq<Sessions>, order: seq<Agent>, orders: seq<seq<Agent>>, agents: nat)
  {
    && |rows| == |orders|
    && forall i :: 0 <= i < |rows| ==> TaskInOrder(rows[i], order, orders[i], agents)
  }

  lemma {:induction false} StreamsAlike(rows: seq<Sessions>, order: seq<Agent>, orders: seq<seq<Agent>>, agents: nat)
    requires TasksInOrder(rows, order, orders, agents)
    ensures Alike(StreamsIn(rows, order), OrderedStreams(rows, orders), agents)
  {
    forall i | 0 <= i < |rows|
      ensures AlikeBlocks(Stream(rows[i], order), Stream(rows[i], orders[i])) && |Stream(rows[i], order)| <= agents
    {
      assert TaskInOrder(rows[i], order, orders[i], agents);
      StreamPermutation(rows[i], order, orders[i]);
      ReorderedAlike(Stream(rows[i], order), Stream(rows[i], orders[i]));
    }
  }

  lemma {:induction false} AlikeDrift(rows: seq<Sessions>, order: seq<Agent>, orders: seq<seq<Agent>>, agents: nat)
    requires |rows| == |orders| && agents > 0
    requires Alike(StreamsIn(rows, order), OrderedStreams(rows, orders), agents)
    ensures Abs(TrailingErrors(Concat(StreamsIn(rows, order)))
                - TrailingErrors(Concat(OrderedStreams(rows, orders)))) <= agents - 1
  {
    ReorderingDrift(StreamsIn(rows, order), OrderedStreams(rows, orders), agents);
  }

  /** After any number of tasks run by `agents` agents, the streak counted in one fixed agent order
      and the streak counted in any per-task permutations of it differ by at most agents - 1. */
  lemma {:induction false} StreakDrift(rows: seq<Sessions>, order: seq<Agent>, orders: seq<seq<Agent>>, agents: nat)
    requires TasksInOrder(rows, order, orders, agents) && agents > 0
    ensures Abs(TrailingErrors(Concat(StreamsIn(rows, order)))
                - TrailingErrors(Concat(OrderedStreams(rows, orders)))) <= agents - 1
  {
    StreamsAlike(rows, order, orders, agents);
    AlikeDrift(rows, order, orders, agents);
  }

  lemma {:induction false} StreamConcat(row: Sessions, a: seq<Agent>, b: seq<Agent>)
    ensures Stream(row, a + b) == Stream(row, a) + Stream(row, b)
  {
    if b == [] {
      assert a + b == a;
    } else {
      var n := |b| - 1;
      assert (a + b)[..|a| + n] == a + b[..n];
      StreamConcat(row, a, b[..n]);
    }
  }

  lemma {:induction false} ErrorStream(row: Sessions, order: seq<Agent>)
    requires forall agent :: agent in order ==> agent in row && row[agent]
    ensures |Stream(row, order)| == |order| && TrailingErrors(Stream(row, order)) == |order|
  {
    if order != [] {
      var n := |order| - 1;
      ErrorStream(row, order[..n]);
      var front := Stream(row, order[..n]);
      assert Stream(row, order) == front + [true] && (front + [true])[..|front|] == front;
    }
  }

  lemma {:induction false} AbsentStream(row: Sessions, order: seq<Agent>)
    requires forall agent :: agent in order ==> agent !in row
    ensures Stream(row, order) == []
  {
    if order != [] {
      AbsentStream(row, order[..|order| - 1]);
    }
  }

  /** A row whose first agent is healthy, the next ones fail and the last ones are absent, read in that
      order and with the first agent moved to the end. */
  lemma RotatedStreams(row: Sessions, first: Agent, ran: seq<Agent>, absent: seq<Agent>)
    requires first in row && !row[first]
    requires forall agent :: agent in ran ==> agent in row && row[agent]
    requires forall agent :: agent in absent ==> agent !in row
    ensures |Stream(row, [first] + (ran + absent))| == |ran| + 1
    ensures TrailingErrors(Stream(row, [first] + (ran + absent))) == |ran|
    ensures TrailingErrors(Stream(row, (ran + absent) + [first])) == 0
  {
    ErrorStream(row, ran);
    AbsentStream(row, absent);
    StreamConcat(row, ran, absent);
    assert Stream(row, ran + absent) == Stream(row, ran);
    StreamConcat(row, [first], ran + absent);
    StreamConcat(row, ran + absent, [first]);
    OneAgent(row, first);
    TrailingAppend([false], Stream(row, ran));
  }

  lemma OneAgent(row: Sessions, agent: Agent)
    requires agent in row
    ensures Stream(row, [agent]) == [row[agent]]
  {
    assert [agent][..0] == [] && Stream(row, []) == [];
  }

  /** Any order of distinct agents is the first, those that ran and the rest. */
  lemma FirstHealthyRow(order: seq<Agent>, agents: nat)
    requires Distinct(order) && 0 < agents <= |order|
    ensures var row: Sessions := map agent | agent in order[..agents] :: agent != order[0];
      && order[0] in row && !row[order[0]]
      && (forall agent :: agent in order[1..agents] ==> agent in row && row[agent])
      && (forall agent :: agent in order[agents..] ==> agent !in row)
    ensures order == [order[0]] + (order[1..agents] + order[agents..])
  {
    var ran := order[..agents];
    assert order[0] == ran[0] && order[0] in ran;
    forall agent | agent in order[1..agents] ensures agent in ran && agent != order[0] {
      var i :| 1 <= i < agents && order[i] == agent;
      assert ran[i] == agent;
    }
    DistinctConcat(ran, order[agents..]);
    assert order == ran + order[agents..];
  }

  /** The bound is reached, for any fixed order, by one task of any number of its agents, read in that
      order and in a permutation of it. */
  lemma DriftReached(order: seq<Agent>, agents: nat) returns (row: Sessions, rotated: seq<Agent>)
    requires Distinct(order) && 0 < agents <= |order|
    ensures multiset(rotated) == multiset(order) && |Stream(row, order)| == agents
    ensures TrailingErrors(Concat(StreamsIn([row], order)))
          - TrailingErrors(Concat(OrderedStreams([row], [rotated]))) == agents - 1
  {
    row, rotated := RotatedRow(order, agents);
    OneBlock(Stream(row, order));
    OneBlock(Stream(row, rotated));
    assert StreamsIn([row], order) == [Stream(row, order)];
    assert OrderedStreams([row], [rotated]) == [Stream(row, rotated)];
  }

  lemma RunOrderDistinct()
    ensures Distinct(AGENT_RUN_ORDER) && |AGENT_RUN_ORDER| == 5
  {
  }

  /** So it is in the orchestrator's order, for one to five agents. */
  lemma DriftReachedInRunOrder(agents: nat) returns (row: Sessions, rotated: seq<Agent>)
    requires 0 < agents <= 5
    ensures multiset(rotated) == multiset(AGENT_RUN_ORDER) && |Stream(row, AGENT_RUN_ORDER)| == agents
    ensures TrailingErrors(Concat(StreamsIn([row], AGENT_RUN_ORDER)))
          - TrailingErrors(Concat(OrderedStreams([row], [rotated]))) == agents - 1
  {
    RunOrderDistinct();
    row, rotated := DriftReached(AGENT_RUN_ORDER, agents);
  }

  lemma RotatedRow(order: seq<Agent>, agents: nat) returns (row: Sessions, rotated: seq<Agent>)
    requires Distinct(order) && 0 < agents <= |order|
    ensures multiset(rotated) == multiset(order) && |Stream(row, order)| == agents
    ensures TrailingErrors(Stream(row, order)) - TrailingErrors(Stream(row, rotated)) == agents - 1
  {
    var first, ran, absent := order[0], order[1..agents], order[agents..];
    row := map agent | agent in order[..agents] :: agent != first;
    rotated := (ran + absent) + [first];
    FirstHealthyRow(order, agents);
    RotatedStreams(row, first, ran, absent);
    assert multiset([first] + (ran + absent)) == multiset(rotated);
  }

  lemma OneBlock(block: seq<bool>)
    ensures Concat([block]) == block
  {
    assert [block][..0] == [] && Concat([]) + block == block;
  }

  // ---------------------------------------------------- resumed sessions

  /** The sessions a benchmark process ran itself; the others were resumed from an earlier run. */
  function Fresh(row: Sessions, resumed: set<Agent>): Sessions
  {
    map agent | agent in row && agent !in resumed :: row[agent]
  }

  /** Only healthy sessions are resumed. (A row can also keep an errored session of an earlier run, if
      the process dies before it runs that agent again; such rows are outside these statements.) */
  ghost predicate ResumedHealthy(row: Sessions, resumed: set<Agent>)
  {
    forall agent :: agent in resumed && agent in row ==> !row[agent]
  }

  lemma {:induction false} ResumedOnlyReset(
    row: Sessions, resumed: set<Agent>, order: seq<Agent>, before: nat, own: nat)
    requires ResumedHealthy(row, resumed) && before <= own
    ensures Fold(before, Stream(row, order)) <= Fold(own, Stream(Fresh(row, resumed), order))
  {
    if order != [] {
      var n := |order| - 1;
      ResumedOnlyReset(row, resumed, order[..n], before, own);
      assert order[..n + 1] == order;
      StreamStep(row, order, n, before);
      StreamStep(Fresh(row, resumed), order, n, own);
    }
  }

  function FreshRows(rows: seq<Sessions>, resumed: seq<set<Agent>>): (own: seq<Sessions>)
    requires |rows| == |resumed|
  {
    seq(|rows|, i requires 0 <= i < |rows| => Fresh(rows[i], resumed[i]))
  }

  lemma {:induction false} FreshAtLeast(rows: seq<Sessions>, resumed: seq<set<Agent>>, order: seq<Agent>)
    requires |rows| == |resumed| && forall i :: 0 <= i < |rows| ==> ResumedHealthy(rows[i], resumed[i])
    ensures TrailingErrors(Concat(StreamsIn(rows, order)))
      <= TrailingErrors(Concat(StreamsIn(FreshRows(rows, resumed), order)))
  {
    var all, own := StreamsIn(rows, order), StreamsIn(FreshRows(rows, resumed), order);
    FoldIsTrailing(Concat(all));
    FoldIsTrailing(Concat(own));
    if rows != [] {
      var n := |rows| - 1;
      FreshAtLeast(rows[..n], resumed[..n], order);
      assert all[..n] == StreamsIn(rows[..n], order);
      assert own[..n] == StreamsIn(FreshRows(rows[..n], resumed[..n]), order);
      FoldIsTrailing(Concat(all[..n]));
      FoldIsTrailing(Concat(own[..n]));
      FoldConcat(0, Concat(all[..n]), all[n]);
      FoldConcat(0, Concat(own[..n]), own[n]);
      ResumedOnlyReset(rows[n], resumed[n], order, Fold(0, Concat(all[..n])), Fold(0, Concat(own[..n])));
    }
  }

  lemma {:induction false} FreshLength(row: Sessions, resumed: set<Agent>, order: seq<Agent>)
    ensures |Stream(Fresh(row, resumed), order)| <= |Stream(row, order)|
  {
    if order != [] {
      FreshLength(row, resumed, order[..|order| - 1]);
    }
  }

  lemma {:induction false} FreshInOrder(
    rows: seq<Sessions>, resumed: seq<set<Agent>>, order: seq<Agent>, orders: seq<seq<Agent>>, agents: nat)
    requires |resumed| == |rows| && TasksInOrder(rows, order, orders, agents)
    ensures TasksInOrder(FreshRows(rows, resumed), order, orders, agents)
  {
    forall i | 0 <= i < |rows| ensures TaskInOrder(Fresh(rows[i], resumed[i]), order, orders[i], agents) {
      assert TaskInOrder(rows[i], order, orders[i], agents);
      FreshLength(rows[i], resumed[i], order);
    }
  }

  /** With resumed sessions, which the benchmark process does not count and the orchestrator does, the
      orchestrator's streak is still never longer by more than agents - 1. */
  lemma {:induction false} ResumedDrift(
    rows: seq<Sessions>, resumed: seq<set<Agent>>, order: seq<Agent>, orders: seq<seq<Agent>>, agents: nat)
    requires |resumed| == |rows| && TasksInOrder(rows, order, orders, agents) && agents > 0
    requires forall i :: 0 <= i < |rows| ==> ResumedHealthy(rows[i], resumed[i])
    ensures TrailingErrors(Concat(StreamsIn(rows, order)))
         <= TrailingErrors(Concat(OrderedStreams(FreshRows(rows, resumed), orders))) + agents - 1
  {
    FreshAtLeast(rows, resumed, order);
    FreshInOrder(rows, resumed, order, orders, agents);
    StreakDrift(FreshRows(rows, resumed), order, orders, agents);
  }

  /** A benchmark run: the sessions of each task, those of them resumed from an earlier run, and the
      order in which the process took the agents. */
  datatype Run = Run(rows: seq<Sessions>, resumed: seq<set<Agent>>, orders: seq<seq<Agent>>)

  ghost predicate Shaped(run: Run) { |run.rows| == |run.resumed| == |run.orders| }

  /** The orchestrator reads every session in the fixed order. */
  function ReadStreak(run: Run, order: seq<Agent>): nat
  {
    TrailingErrors(Concat(StreamsIn(run.rows, order)))
  }

  /** The process sees the sessions it ran itself, in its own order. */
  function OwnStream(run: Run): seq<bool>
    requires Shaped(run)
  {
    Concat(OrderedStreams(FreshRows(run.rows, run.resumed), run.orders))
  }

  function OwnStreak(run: Run): nat
    requires Shaped(run)
  {
    TrailingErrors(OwnStream(run))
  }

  /** The process was still running before its last session. */
  ghost predicate BelowLimit(stream: seq<bool>)
  {
    forall n :: 0 <= n < |stream| ==> TrailingErrors(stream[..n]) < RUN_BREAKER_LIMIT
  }

  ghost predicate HasTasks(run: Run, order: seq<Agent>, agents: nat)
  {
    && Shaped(run) && TasksInOrder(run.rows, order, run.orders, agents)
    && forall i :: 0 <= i < |run.rows| ==> ResumedHealthy(run.rows[i], run.resumed[i])
  }

  /** A process that exits at its limit gets through these tasks. */
  ghost predicate IsRun(run: Run, order: seq<Agent>, agents: nat)
  {
    HasTasks(run, order, agents) && BelowLimit(OwnStream(run))
  }

  function ResumedIn(row: Sessions, resumed: set<Agent>): set<Agent>
  {
    set agent | agent in row && agent in resumed
  }

  /** The number of sessions that were resumed. */
  function ResumedCount(rows: seq<Sessions>, resumed: seq<set<Agent>>): nat
    requires |rows| == |resumed|
  {
    if rows == [] then 0
    else
      var n := |rows| - 1;
      ResumedCount(rows[..n], resumed[..n]) + |ResumedIn(rows[n], resumed[n])|
  }

  lemma {:induction false} NoneResumed(rows: seq<Sessions>, resumed: seq<set<Agent>>)
    requires |rows| == |resumed| && ResumedCount(rows, resumed) == 0
    ensures FreshRows(rows, resumed) == rows
  {
    if rows != [] {
      var n := |rows| - 1;
      NoneResumed(rows[..n], resumed[..n]);
      assert FreshRows(rows[..n], resumed[..n]) == FreshRows(rows, resumed)[..n];
      forall agent | agent in rows[n] ensures agent !in resumed[n] {
        assert agent !in ResumedIn(rows[n], resumed[n]);
      }
      assert Fresh(rows[n], resumed[n]) == rows[n];
      assert rows == rows[..n] + [rows[n]] && FreshRows(rows, resumed) == rows[..n] + [rows[n]];
    }
  }

  /** The most that the orchestrator's streak can exceed the process's by, and the other way round. */
  lemma ResumedRange(run: Run, order: seq<Agent>, agents: nat)
    requires IsRun(run, order, agents) && agents > 0
    ensures ReadStreak(run, order) <= OwnStreak(run) + agents - 1
    ensures OwnStreak(run) <= ReadStreak(run, order) + RUN_BREAKER_LIMIT
    ensures OwnStreak(run) <= RUN_BREAKER_LIMIT
  {
    ResumedDrift(run.rows, run.resumed, order, run.orders, agents);
    var stream := OwnStream(run);
    if stream != [] {
      assert TrailingErrors(stream[..|stream| - 1]) < RUN_BREAKER_LIMIT;
    }
  }

  // ------------------------------------------------ one resumed session

  /** n tasks of the first agent alone, each an error, and one last task. */
  function ErrorsThen(order: seq<Agent>, n: nat, last: Sessions, resumed: set<Agent>): Run
    requires order != []
  {
    Run(seq(n, _ => map[order[0] := true]) + [last], seq(n, _ => {}) + [resumed], seq(n + 1, _ => order))
  }

  lemma SingleStream(order: seq<Agent>, row: Sessions)
    requires Distinct(order) && order != [] && row.Keys == {order[0]}
    ensures Stream(row, order) == [row[order[0]]]
  {
    var first, rest := order[..1], order[1..];
    assert order == first + rest && first == [order[0]];
    StreamConcat(row, first, rest);
    OneAgent(row, order[0]);
    AbsentStream(row, rest);
  }

  lemma {:induction false} AllErrorBlocks(n: nat)
    ensures Concat(seq(n, _ => [true])) == seq(n, _ => true)
    ensures TrailingErrors(seq(n, _ => true)) == n
  {
    if n > 0 {
      AllErrorBlocks(n - 1);
      assert seq(n, _ => [true])[..n - 1] == seq(n - 1, _ => [true]);
      assert seq(n, _ => true)[..n - 1] == seq(n - 1, _ => true);
      assert seq(n, _ => true) == seq(n - 1, _ => true) + [true];
    }
  }

  lemma ConcatAppend(blocks: seq<seq<bool>>, last: seq<bool>)
    ensures Concat(blocks + [last]) == Concat(blocks) + last
  {
    assert (blocks + [last])[..|blocks|] == blocks;
  }

  lemma ErrorsBelowLimit(n: nat)
    requires n <= RUN_BREAKER_LIMIT
    ensures BelowLimit(seq(n, _ => true))
  {
    var errors := seq(n, _ => true);
    forall m | 0 <= m < |errors| ensures TrailingErrors(errors[..m]) == m {
      AllErrorBlocks(m);
      assert errors[..m] == seq(m, _ => true);
    }
  }

  /** Streams of n blocks of one error and a last block. */
  lemma {:induction false} ErrorsThenBlock(blocks: seq<seq<bool>>, n: nat, last: seq<bool>)
    requires |blocks| == n + 1 && blocks[n] == last && forall i :: 0 <= i < n ==> blocks[i] == [true]
    ensures Concat(blocks) == seq(n, _ => true) + last
  {
    AllErrorBlocks(n);
    assert blocks == seq(n, _ => [true]) + [last];
    ConcatAppend(seq(n, _ => [true]), last);
  }

  lemma {:induction false} ErrorsThenRead(order: seq<Agent>, n: nat, last: Sessions, resumed: set<Agent>)
    requires Distinct(order) && order != []
    ensures Concat(StreamsIn(ErrorsThen(order, n, last, resumed).rows, order))
      == seq(n, _ => true) + Stream(last, order)
  {
    SingleStream(order, map[order[0] := true]);
    ErrorsThenBlock(StreamsIn(ErrorsThen(order, n, last, resumed).rows, order), n, Stream(last, order));
  }

  lemma {:induction false} ErrorsThenOwn(order: seq<Agent>, n: nat, last: Sessions, resumed: set<Agent>)
    requires Distinct(order) && order != []
    ensures var run := ErrorsThen(order, n, last, resumed);
      Shaped(run) && OwnStream(run) == seq(n, _ => true) + Stream(Fresh(last, resumed), order)
  {
    var run := ErrorsThen(order, n, last, resumed);
    var error: Sessions := map[order[0] := true];
    SingleStream(order, error);
    assert Fresh(error, {}) == error;
    var blocks := OrderedStreams(FreshRows(run.rows, run.resumed), run.orders);
    ErrorsThenBlock(blocks, n, Stream(Fresh(last, resumed), order));
  }

  lemma {:induction false} ErrorsThenCount(order: seq<Agent>, n: nat, last: Sessions, resumed: set<Agent>)
    requires order != []
    ensures var run := ErrorsThen(order, n, last, resumed);
      Shaped(run) && ResumedCount(run.rows, run.resumed) == |ResumedIn(last, resumed)|
  {
    var run := ErrorsThen(order, n, last, resumed);
    NothingResumed(order[0], n);
    assert run.rows[..n] == seq(n, _ => map[order[0] := true]) && run.resumed[..n] == seq(n, _ => {});
  }

  /** Such a run is one of the code's if the last task is. */
  lemma {:induction false} ErrorsThenTasks(order: seq<Agent>, n: nat, last: Sessions, resumed: set<Agent>, agents: nat)
    requires Distinct(order) && order != [] && agents > 0
    requires ResumedHealthy(last, resumed) && |Stream(last, order)| <= agents
    ensures HasTasks(ErrorsThen(order, n, last, resumed), order, agents)
  {
    SingleStream(order, map[order[0] := true]);
    var run := ErrorsThen(order, n, last, resumed);
    forall i | 0 <= i < n + 1
      ensures TaskInOrder(run.rows[i], order, run.orders[i], agents) && ResumedHealthy(run.rows[i], run.resumed[i])
    {
    }
  }

  lemma {:induction false} NothingResumed(agent: Agent, n: nat)
    ensures ResumedCount(seq(n, _ => map[agent := true]), seq(n, _ => {})) == 0
  {
    if n > 0 {
      NothingResumed(agent, n - 1);
      var row: Sessions := map[agent := true];
      assert seq(n, _ => row)[..n - 1] == seq(n - 1, _ => row);
      var none: set<Agent> := {};
      assert seq(n, _ => none)[..n - 1] == seq(n - 1, _ => none);
      assert ResumedIn(row, none) == {};
    }
  }

  /** A single resumed session breaks the bound: it resets the orchestrator's streak alone. */
  lemma {:induction false} OneResumedBreaks(order: seq<Agent>, agents: nat) returns (run: Run)
    requires Distinct(order) && order != [] && 0 < agents <= RUN_BREAKER_LIMIT
    ensures IsRun(run, order, agents) && ResumedCount(run.rows, run.resumed) == 1
    ensures OwnStreak(run) == agents && ReadStreak(run, order) == 0
  {
    var last: Sessions, first := map[order[0] := false], {order[0]};
    run := ErrorsThen(order, agents, last, first);
    SingleStream(order, last);
    assert Fresh(last, first) == map[] && ResumedIn(last, first) == first;
    AbsentStream(Fresh(last, first), order);
    ErrorsThenTasks(order, agents, last, first, agents);
    ErrorsThenCount(order, agents, last, first);
    ErrorsThenRead(order, agents, last, first);
    ErrorsThenOwn(order, agents, last, first);
    assert OwnStream(run) == seq(agents, _ => true);
    AllErrorBlocks(agents);
    ErrorsBelowLimit(agents);
    TrailingAppend(seq(agents, _ => true), [false]);
  }

  lemma {:induction false} OwnIsAll(run: Run)
    requires Shaped(run) && ResumedCount(run.rows, run.resumed) == 0
    ensures OwnStreak(run) == TrailingErrors(Concat(OrderedStreams(run.rows, run.orders)))
  {
    NoneResumed(run.rows, run.resumed);
  }

  lemma {:induction false} ReadStreakIs(run: Run, order: seq<Agent>)
    ensures ReadStreak(run, order) == TrailingErrors(Concat(StreamsIn(run.rows, order)))
  {
  }

  lemma {:induction false} FreshRunDrift(run: Run, order: seq<Agent>, agents: nat)
    requires HasTasks(run, order, agents) && agents > 0 && ResumedCount(run.rows, run.resumed) == 0
    ensures Abs(ReadStreak(run, order) - OwnStreak(run)) <= agents - 1
  {
    ReadStreakIs(run, order);
    OwnIsAll(run);
    StreakDrift(run.rows, order, run.orders, agents);
  }

  /** The two streaks stay within agents - 1 of each other in all runs with at most k resumed sessions
      exactly when k is zero. */
  lemma {:induction false} ResumedBoundIff(order: seq<Agent>, agents: nat, k: nat)
    requires Distinct(order) && order != [] && 0 < agents <= RUN_BREAKER_LIMIT
    ensures (forall run: Run :: IsRun(run, order, agents) && ResumedCount(run.rows, run.resumed) <= k
               ==> Abs(ReadStreak(run, order) - OwnStreak(run)) <= agents - 1)
       <==> k == 0
  {
    if k == 0 {
      forall run: Run | IsRun(run, order, agents) && ResumedCount(run.rows, run.resumed) <= k
        ensures Abs(ReadStreak(run, order) - OwnStreak(run)) <= agents - 1
      {
        FreshRunDrift(run, order, agents);
      }
    } else {
      var run := OneResumedBreaks(order, agents);
    }
  }

  /** In the orchestrator's order, for one to five agents. */
  lemma ResumedBoundInRunOrder(agents: nat, k: nat)
    requires 0 < agents <= |AGENT_RUN_ORDER|
    ensures (forall run: Run :: IsRun(run, AGENT_RUN_ORDER, agents) && ResumedCount(run.rows, run.resumed) <= k
               ==> Abs(ReadStreak(run, AGENT_RUN_ORDER) - OwnStreak(run)) <= agents - 1)
       <==> k == 0
  {
    RunOrderDistinct();
    ResumedBoundIff(AGENT_RUN_ORDER, agents, k);
  }

  /** With two agents or more the far end of the range is reached: the process stands at its limit and
      the orchestrator at zero, through one resumed session. */
  lemma {:induction false} LimitReached(order: seq<Agent>, agents: nat) returns (run: Run)
    requires Distinct(order) && |order| >= 2 && agents >= 2
    ensures IsRun(run, order, agents) && ResumedCount(run.rows, run.resumed) == 1
    ensures OwnStreak(run) == RUN_BREAKER_LIMIT && ReadStreak(run, order) == 0
  {
    var n, last: Sessions, second := RUN_BREAKER_LIMIT - 1, map[order[0] := true, order[1] := false], {order[1]};
    run := ErrorsThen(order, n, last, second);
    HalfResumed(order);
    ErrorsThenTasks(order, n, last, second, agents);
    ErrorsThenCount(order, n, last, second);
    ErrorsThenRead(order, n, last, second);
    ErrorsThenOwn(order, n, last, second);
    assert OwnStream(run) == seq(RUN_BREAKER_LIMIT, _ => true);
    AllErrorBlocks(RUN_BREAKER_LIMIT);
    ErrorsBelowLimit(RUN_BREAKER_LIMIT);
    assert seq(n, _ => true) + [true, false] == seq(n, _ => true) + [true] + [false];
    TrailingAppend(seq(n, _ => true) + [true], [false]);
  }

  /** A task whose first agent failed and whose second was resumed. */
  lemma {:induction false} HalfResumed(order: seq<Agent>)
    requires Distinct(order) && |order| >= 2
    ensures var row: Sessions, second := map[order[0] := true, order[1] := false], {order[1]};
      && Stream(row, order) == [true, false] && Stream(Fresh(row, second), order) == [true]
      && ResumedIn(row, second) == second && ResumedHealthy(row, second)
  {
    var row: Sessions, second := map[order[0] := true, order[1] := false], {order[1]};
    assert order[0] != order[1];
    assert order == [order[0]] + ([order[1]] + order[2..]);
    TwoAgents(row, order[0], order[1], order[2..]);
    assert Fresh(row, second).Keys == {order[0]};
    SingleStream(order, Fresh(row, second));
  }

  lemma TwoAgents(row: Sessions, a: Agent, b: Agent, rest: seq<Agent>)
    requires a in row && b in row && forall agent :: agent in rest ==> agent !in row
    ensures Stream(row, [a] + ([b] + rest)) == [row[a], row[b]]
  {
    StreamConcat(row, [a], [b] + rest);
    StreamConcat(row, [b], rest);
    AbsentStream(row, rest);
    OneAgent(row, a);
    OneAgent(row, b);
  }
}
