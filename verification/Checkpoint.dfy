/** The checkpoint/resume loop of the coding benchmark: a process that may crash between any two
    steps, and the two checkpoint files that survive it. */
module Checkpoint {
  import opened Sequences
  import opened CodingGate

  /** The selected tasks, and for each whether its arms run in reverse order. */
  datatype Config = Config(tasks: seq<string>, reversed: string -> bool)

  function ArmOrder(c: Config, task: string): seq<Arm>
  {
    if c.reversed(task) then [Greppy, Explorer] else [Explorer, Greppy]
  }

  /** Where the process is. `Head` starts the loop body for the current task, `Body(a)` is about to
      consider its a-th arm, `Running(a)` is running it; the two saving phases write results.json and
      then MANIFEST.json and return to `back`. */
  datatype Phase =
    | Head | Body(a: nat) | Running(a: nat)
    | SavingResults(back: Phase) | SavingManifest(back: Phase)
    | Finished

  datatype Mem = Down | Up(identity: string, rows: seq<Row>, completed: set<Key>, cursor: nat, phase: Phase)

  /** The manifest file records the identity of the run: tools, versions, tasks and contracts. */
  datatype State = State(results: Option<seq<Row>>, manifest: Option<string>, mem: Mem)

  const INITIAL := State(None, None, Down)

  // ---------------------------------------------------------- validation

  ghost predicate DistinctKeys(rows: seq<Row>)
  {
    forall i, j :: 0 <= i < j < |rows| ==> KeyOf(rows[i]) != KeyOf(rows[j])
  }

  ghost predicate RowsValid(rows: seq<Row>, tasks: seq<string>)
  {
    DistinctKeys(rows) && forall i :: 0 <= i < |rows| ==> rows[i].task in tasks
  }

  function Keys(rows: seq<Row>): set<Key>
  {
    set r | r in rows :: KeyOf(r)
  }

  /** An entry of a results file: None is one that is no object, has another schema version or names
      no arm. A document whose results are no array is None itself. */
  type Entries = Option<seq<Option<Row>>>

  function RowsIn(entries: seq<Option<Row>>): seq<Row>
  {
    if entries == [] then []
    else
      var last := entries[|entries| - 1];
      RowsIn(entries[..|entries| - 1]) + if last.Some? then [last.value] else []
  }

  ghost predicate EntriesValid(entries: Entries, tasks: seq<string>)
  {
    entries.Some? && None !in entries.value && RowsValid(RowsIn(entries.value), tasks)
  }

  lemma RowsInStep(entries: seq<Option<Row>>, i: nat)
    requires i < |entries| && entries[i].Some?
    ensures RowsIn(entries[..i + 1]) == RowsIn(entries[..i]) + [entries[i].value]
  {
    assert entries[..i + 1][..i] == entries[..i];
  }

  lemma {:induction false} RowsInPrefix(entries: seq<Option<Row>>, i: nat)
    requires i <= |entries|
    ensures RowsIn(entries[..i]) <= RowsIn(entries)
    decreases |entries| - i
  {
    if i < |entries| {
      assert entries[..i + 1][..i] == entries[..i];
      RowsInPrefix(entries, i + 1);
    } else {
      assert entries[..i] == entries;
    }
  }

  /** Accepts the entries of a results file exactly when all are well formed, each belongs to the
      selected tasks and no key repeats, and then returns their rows unchanged. */
  method ValidateResumeRows(entries: Entries, tasks: seq<string>) returns (validated: Option<seq<Row>>)
    ensures validated.Some? <==> EntriesValid(entries, tasks)
    ensures validated.Some? ==> validated.value == RowsIn(entries.value)
  {
    if entries.None? {
      return None;
    }
    var es := entries.value;
    var seen: set<Key> := {};
    var out := [];
    for i := 0 to |es|
      invariant None !in es[..i] && out == RowsIn(es[..i]) && RowsValid(out, tasks)
      invariant forall k :: k in seen <==> exists j :: 0 <= j < |out| && KeyOf(out[j]) == k
    {
      assert es[i] in es;
      if es[i].None? {
        return None;
      }
      var row := es[i].value;
      RowsInStep(es, i);
      RowsInPrefix(es, i + 1);
      assert RowsIn(es)[|out|] == row && RowsIn(es)[..|out|] == out;
      if row.task !in tasks {
        return None;
      }
      if KeyOf(row) in seen {
        return None;
      }
      seen := seen + {KeyOf(row)};
      out := out + [row];
    }
    assert es[..|es|] == es;
    validated := Some(out);
  }

  // --------------------------------------------------------- checkpoints

  function Position(tasks: seq<string>, task: string): nat
  {
    if tasks == [] || tasks[0] == task then 0 else 1 + Position(tasks[1..], task)
  }

  function RankOf(tasks: seq<string>, row: Row): nat
  {
    2 * Position(tasks, row.task) + if row.arm == Explorer then 0 else 1
  }

  function RankLe(tasks: seq<string>): (Row, Row) -> bool
  {
    (r: Row, s: Row) => RankOf(tasks, r) <= RankOf(tasks, s)
  }

  /** The order in which a checkpoint lists the rows. */
  function Ordered(rows: seq<Row>, tasks: seq<string>): seq<Row>
  {
    Sort(rows, RankLe(tasks))
  }

  lemma OrderedKeepsRows(rows: seq<Row>, tasks: seq<string>)
    ensures multiset(Ordered(rows, tasks)) == multiset(rows)
  {
    SortSorts(rows, RankLe(tasks));
  }

  // --------------------------------------------------------------- steps

  function FailureRow(task: string, arm: Arm): Row
  {
    Row(task, arm, false, false, 0.0)
  }

  function Failures(task: string, completed: set<Key>): seq<Row>
  {
    (if (task, Explorer) in completed then [] else [FailureRow(task, Explorer)])
    + (if (task, Greppy) in completed then [] else [FailureRow(task, Greppy)])
  }

  datatype Step =
    | Boot(resume: bool, identity: string) | SaveResults | SaveManifest | SkipTask | EnterTask | FailTask
    | SkipArm | StartArm(key: Key) | EndArm(row: Row) | LeaveTask | Finish | Crash

  predicate TaskComplete(completed: set<Key>, task: string)
  {
    (task, Explorer) in completed && (task, Greppy) in completed
  }

  function ArmKey(c: Config, cursor: nat, a: nat): Key
    requires cursor < |c.tasks| && a < 2
  {
    (c.tasks[cursor], ArmOrder(c, c.tasks[cursor])[a])
  }

  /** Phases whose exceptions the handler of the current task catches. */
  predicate Guarded(c: Config, m: Mem)
    requires m.Up? && m.cursor < |c.tasks|
  {
    match m.phase
    case Head => !TaskComplete(m.completed, c.tasks[m.cursor])
    case Body(_) => true
    case Running(_) => true
    case SavingResults(back) => back.Body?
    case SavingManifest(back) => back.Body?
    case Finished => false
  }

  ghost predicate Next(c: Config, s: State, t: State, step: Step)
  {
    var m := s.mem;
    match step
    case Boot(resume, identity) =>
      && m.Down?
      && (s.results.Some? ==> resume && s.manifest == Some(identity) && RowsValid(s.results.value, c.tasks))
      && var rows := if s.results.Some? then s.results.value else [];
         t == s.(mem := Up(identity, rows, Keys(rows), 0, SavingResults(Head)))
    case SaveResults =>
      && m.Up? && m.phase.SavingResults?
      && t == s.(results := Some(Ordered(m.rows, c.tasks)), mem := m.(phase := SavingManifest(m.phase.back)))
    case SaveManifest =>
      && m.Up? && m.phase.SavingManifest?
      && t == s.(manifest := Some(m.identity), mem := m.(phase := m.phase.back))
    case SkipTask =>
      && m.Up? && m.phase.Head? && m.cursor < |c.tasks| && TaskComplete(m.completed, c.tasks[m.cursor])
      && t == s.(mem := m.(cursor := m.cursor + 1))
    case EnterTask =>
      && m.Up? && m.phase.Head? && m.cursor < |c.tasks| && !TaskComplete(m.completed, c.tasks[m.cursor])
      && t == s.(mem := m.(phase := Body(0)))
    case FailTask =>
      && m.Up? && m.cursor < |c.tasks| && Guarded(c, m)
      && var failures := Failures(c.tasks[m.cursor], m.completed);
         t == s.(mem := Up(
           m.identity, m.rows + failures, m.completed + Keys(failures), m.cursor + 1, SavingResults(Head)))
    case SkipArm =>
      && m.Up? && m.phase.Body? && m.phase.a < 2 && m.cursor < |c.tasks|
      && ArmKey(c, m.cursor, m.phase.a) in m.completed
      && t == s.(mem := m.(phase := Body(m.phase.a + 1)))
    case StartArm(key) =>
      && m.Up? && m.phase.Body? && m.phase.a < 2 && m.cursor < |c.tasks|
      && key == ArmKey(c, m.cursor, m.phase.a) && key !in m.completed
      && t == s.(mem := m.(phase := Running(m.phase.a)))
    case EndArm(row) =>
      && m.Up? && m.phase.Running? && m.phase.a < 2 && m.cursor < |c.tasks|
      && KeyOf(row) == ArmKey(c, m.cursor, m.phase.a)
      && t == s.(mem := Up(m.identity, m.rows + [row], m.completed + {KeyOf(row)}, m.cursor,
                           SavingResults(Body(m.phase.a + 1))))
    case LeaveTask =>
      && m.Up? && m.phase.Body? && m.phase.a == 2
      && t == s.(mem := m.(cursor := m.cursor + 1, phase := Head))
    case Finish =>
      && m.Up? && m.phase.Head? && m.cursor == |c.tasks|
      && t == s.(mem := m.(phase := Finished))
    case Crash => m.Up? && t == s.(mem := Down)
  }

  /** A history: any interleaving of boots, arm results, failures, exceptions and crashes. */
  ghost predicate IsHistory(c: Config, run: seq<State>, steps: seq<Step>)
  {
    && |run| == |steps| + 1 && run[0] == INITIAL
    && forall i :: 0 <= i < |steps| ==> Next(c, run[i], run[i + 1], steps[i])
  }

  // ----------------------------------------------------------- invariant

  function Saved(s: State): seq<Row>
  {
    if s.results.Some? then s.results.value else []
  }

  ghost predicate InSync(s: State)
    requires s.mem.Up?
  {
    s.results.Some? && multiset(s.results.value) == multiset(s.mem.rows)
  }

  ghost predicate ArmsDone(c: Config, cursor: nat, completed: set<Key>, a: nat)
  {
    a <= 2 && cursor < |c.tasks| && forall j :: 0 <= j < a ==> ArmKey(c, cursor, j) in completed
  }

  ghost predicate PhaseOk(c: Config, s: State)
    requires s.mem.Up?
  {
    var m := s.mem;
    match m.phase
    case Head => InSync(s) && s.manifest == Some(m.identity)
    case Body(a) => InSync(s) && s.manifest == Some(m.identity) && ArmsDone(c, m.cursor, m.completed, a)
    case Running(a) => InSync(s) && s.manifest == Some(m.identity)
      && a < 2 && ArmsDone(c, m.cursor, m.completed, a) && ArmKey(c, m.cursor, a) !in m.completed
    case SavingResults(back) => back == Head || (back.Body? && ArmsDone(c, m.cursor, m.completed, back.a))
    case SavingManifest(back) =>
      InSync(s) && (back == Head || (back.Body? && ArmsDone(c, m.cursor, m.completed, back.a)))
    case Finished => InSync(s) && s.manifest == Some(m.identity) && m.cursor == |c.tasks|
  }

  ghost predicate MemOk(c: Config, s: State)
    requires s.mem.Up?
  {
    var m := s.mem;
    && RowsOk(c.tasks, Saved(s), m.rows, m.completed, m.cursor)
    && (s.manifest.Some? ==> s.manifest == Some(m.identity))
    && PhaseOk(c, s)
  }

  ghost predicate Invariant(c: Config, s: State)
  {
    && RowsValid(Saved(s), c.tasks)
    && (s.manifest.Some? ==> s.results.Some?)
    && (s.mem.Up? ==> MemOk(c, s))
  }

  lemma SameRows(a: seq<Row>, b: seq<Row>)
    requires multiset(a) == multiset(b)
    ensures forall r :: r in a <==> r in b
  {
    forall r ensures r in a <==> r in b {
      assert r in multiset(a) <==> r in multiset(b);
    }
  }

  /** Distinct keys survive reordering. */
  lemma PermutedValid(a: seq<Row>, b: seq<Row>, tasks: seq<string>)
    requires multiset(a) == multiset(b) && RowsValid(a, tasks)
    ensures RowsValid(b, tasks)
  {
    SameRows(a, b);
    forall i | 0 <= i < |b| ensures b[i].task in tasks {
      assert b[i] in a;
    }
    PermutedDistinct(a, b);
    forall i, j | 0 <= i < j < |b| ensures KeyOf(b[i]) != KeyOf(b[j]) {
      assert b[i] in a && b[j] in a && b[i] != b[j];
    }
  }

  lemma AppendRows(rows: seq<Row>, completed: set<Key>, row: Row, tasks: seq<string>)
    requires RowsValid(rows, tasks) && completed == Keys(rows)
    requires KeyOf(row) !in completed && row.task in tasks
    ensures RowsValid(rows + [row], tasks) && completed + {KeyOf(row)} == Keys(rows + [row])
  {
    forall i | 0 <= i < |rows| ensures KeyOf(rows[i]) != KeyOf(row) {
      assert rows[i] in rows;
    }
    assert forall r :: r in rows + [row] <==> r in rows || r == row;
  }

  lemma AppendFailures(rows: seq<Row>, completed: set<Key>, task: string, tasks: seq<string>)
    requires RowsValid(rows, tasks) && completed == Keys(rows) && task in tasks
    ensures var failures := Failures(task, completed);
            && RowsValid(rows + failures, tasks)
            && completed + Keys(failures) == Keys(rows + failures)
            && TaskComplete(completed + Keys(failures), task)
  {
    var failures := Failures(task, completed);
    var e, g := FailureRow(task, Explorer), FailureRow(task, Greppy);
    var mid := if KeyOf(e) in completed then rows else rows + [e];
    if KeyOf(e) !in completed {
      AppendRows(rows, completed, e, tasks);
    }
    if KeyOf(g) !in completed {
      AppendRows(mid, Keys(mid), g, tasks);
    }
    assert rows + failures == if KeyOf(g) in completed then mid else mid + [g];
    assert Keys(rows + failures) == Keys(rows) + Keys(failures);
    assert KeyOf(e) !in completed ==> e in failures;
    assert KeyOf(g) !in completed ==> g in failures;
  }

  lemma BootKeepsInvariant(c: Config, s: State, t: State, resume: bool, identity: string)
    requires Invariant(c, s) && Next(c, s, t, Boot(resume, identity))
    ensures Invariant(c, t)
  {
    assert t.results == s.results && t.mem.rows == Saved(s);
  }

  lemma SaveKeepsInvariant(c: Config, s: State, t: State)
    requires Invariant(c, s) && Next(c, s, t, SaveResults)
    ensures Invariant(c, t)
  {
    var ordered := Ordered(s.mem.rows, c.tasks);
    OrderedKeepsRows(s.mem.rows, c.tasks);
    PermutedValid(s.mem.rows, ordered, c.tasks);
    SameRows(s.mem.rows, ordered);
    assert Saved(t) == ordered;
  }

  /** Earlier tasks stay complete as keys are added, and the task at the cursor joins them. */
  lemma {:induction false} TasksStayComplete(tasks: seq<string>, cursor: nat, completed: set<Key>, more: set<Key>)
    requires cursor < |tasks| && forall i :: 0 <= i < cursor ==> TaskComplete(completed, tasks[i])
    requires TaskComplete(completed + more, tasks[cursor])
    ensures forall i :: 0 <= i < cursor + 1 ==> TaskComplete(completed + more, tasks[i])
  {
    forall i | 0 <= i < cursor ensures TaskComplete(completed + more, tasks[i]) {
      assert TaskComplete(completed, tasks[i]);
    }
  }

  lemma {:induction false} SavedStayInMemory(saved: seq<Row>, rows: seq<Row>, more: seq<Row>)
    requires forall r :: r in saved ==> r in rows
    ensures forall r :: r in saved ==> r in rows + more
  {
  }

  /** The parts of a memory that speak of rows and keys. */
  ghost predicate RowsOk(tasks: seq<string>, saved: seq<Row>, rows: seq<Row>, completed: set<Key>, cursor: nat)
  {
    && RowsValid(rows, tasks) && completed == Keys(rows)
    && (forall r :: r in saved ==> r in rows)
    && cursor <= |tasks|
    && (forall i :: 0 <= i < cursor ==> TaskComplete(completed, tasks[i]))
  }

  lemma {:induction false} FailKeepsRows(
    tasks: seq<string>, saved: seq<Row>, rows: seq<Row>, completed: set<Key>, cursor: nat)
    requires RowsOk(tasks, saved, rows, completed, cursor) && cursor < |tasks|
    ensures var failures := Failures(tasks[cursor], completed);
            RowsOk(tasks, saved, rows + failures, completed + Keys(failures), cursor + 1)
  {
    var failures := Failures(tasks[cursor], completed);
    AppendFailures(rows, completed, tasks[cursor], tasks);
    TasksStayComplete(tasks, cursor, completed, Keys(failures));
    SavedStayInMemory(saved, rows, failures);
  }

  lemma {:induction false} FailKeepsInvariant(c: Config, s: State, t: State)
    requires Invariant(c, s) && Next(c, s, t, FailTask)
    ensures Invariant(c, t)
  {
    FailKeepsRows(c.tasks, Saved(s), s.mem.rows, s.mem.completed, s.mem.cursor);
  }

  lemma EndArmKeepsInvariant(c: Config, s: State, t: State, row: Row)
    requires Invariant(c, s) && Next(c, s, t, EndArm(row))
    ensures Invariant(c, t)
  {
    AppendRows(s.mem.rows, s.mem.completed, row, c.tasks);
  }

  lemma {:induction false} LeaveKeepsInvariant(c: Config, s: State, t: State)
    requires Invariant(c, s) && Next(c, s, t, LeaveTask)
    ensures Invariant(c, t)
  {
    assert ArmKey(c, s.mem.cursor, 0) in s.mem.completed && ArmKey(c, s.mem.cursor, 1) in s.mem.completed;
    SkipKeepsRows(c.tasks, Saved(s), s.mem.rows, s.mem.completed, s.mem.cursor);
  }

  lemma {:induction false} SkipKeepsRows(
    tasks: seq<string>, saved: seq<Row>, rows: seq<Row>, completed: set<Key>, cursor: nat)
    requires RowsOk(tasks, saved, rows, completed, cursor) && cursor < |tasks| && TaskComplete(completed, tasks[cursor])
    ensures RowsOk(tasks, saved, rows, completed, cursor + 1)
  {
  }

  lemma {:induction false} SkipKeepsInvariant(c: Config, s: State, t: State)
    requires Invariant(c, s) && Next(c, s, t, SkipTask)
    ensures Invariant(c, t)
  {
    SkipKeepsRows(c.tasks, Saved(s), s.mem.rows, s.mem.completed, s.mem.cursor);
    assert Saved(t) == Saved(s) && t.mem == s.mem.(cursor := s.mem.cursor + 1);
  }

  lemma {:induction false} ArmKeepsInvariant(c: Config, s: State, t: State, step: Step)
    requires Invariant(c, s) && Next(c, s, t, step)
    requires step in {EnterTask, SkipArm} || step.StartArm?
    ensures Invariant(c, t)
  {
    assert t.results == s.results && t.manifest == s.manifest;
  }

  lemma {:induction false} QuietKeepsInvariant(c: Config, s: State, t: State, step: Step)
    requires Invariant(c, s) && Next(c, s, t, step)
    requires step in {SaveManifest, Finish, Crash}
    ensures Invariant(c, t)
  {
    assert t.results == s.results;
  }

  lemma NextKeepsInvariant(c: Config, s: State, t: State, step: Step)
    requires Invariant(c, s) && Next(c, s, t, step)
    ensures Invariant(c, t)
  {
    match step
    case Boot(resume, identity) => BootKeepsInvariant(c, s, t, resume, identity);
    case SaveResults => SaveKeepsInvariant(c, s, t);
    case FailTask => FailKeepsInvariant(c, s, t);
    case EndArm(row) => EndArmKeepsInvariant(c, s, t, row);
    case LeaveTask => LeaveKeepsInvariant(c, s, t);
    case SkipTask => SkipKeepsInvariant(c, s, t);
    case EnterTask | SkipArm | StartArm(_) => ArmKeepsInvariant(c, s, t, step);
    case SaveManifest | Finish | Crash => QuietKeepsInvariant(c, s, t, step);
  }

  lemma {:induction false} HistoryInvariant(c: Config, run: seq<State>, steps: seq<Step>, i: nat)
    requires IsHistory(c, run, steps) && i < |run|
    ensures Invariant(c, run[i])
  {
    if i > 0 {
      HistoryInvariant(c, run, steps, i - 1);
      NextKeepsInvariant(c, run[i - 1], run[i], steps[i - 1]);
    }
  }

  // -------------------------------------------------------- main results

  lemma SavedGrows(c: Config, s: State, t: State, step: Step)
    requires Invariant(c, s) && Next(c, s, t, step)
    ensures forall r :: r in Saved(s) ==> r in Saved(t)
  {
    if step == SaveResults {
      OrderedKeepsRows(s.mem.rows, c.tasks);
      SameRows(s.mem.rows, Ordered(s.mem.rows, c.tasks));
    } else {
      assert t.results == s.results;
    }
  }

  /** A checkpoint only ever grows: every saved row is still there, unchanged, in every later one. */
  lemma {:induction false} CheckpointsGrow(c: Config, run: seq<State>, steps: seq<Step>, i: nat, j: nat)
    requires IsHistory(c, run, steps) && i <= j < |run|
    ensures forall r :: r in Saved(run[i]) ==> r in Saved(run[j])
  {
    if i < j {
      CheckpointsGrow(c, run, steps, i, j - 1);
      HistoryInvariant(c, run, steps, j - 1);
      SavedGrows(c, run[j - 1], run[j], steps[j - 1]);
    }
  }

  /** Once an arm's row has been checkpointed, no later step of any process starts that arm again. */
  lemma CheckpointedArmNeverRuns(c: Config, run: seq<State>, steps: seq<Step>, i: nat, j: nat, key: Key)
    requires IsHistory(c, run, steps) && i <= j < |steps|
    requires key in Keys(Saved(run[i]))
    ensures steps[j] != StartArm(key)
  {
    CheckpointsGrow(c, run, steps, i, j);
    HistoryInvariant(c, run, steps, j);
    var r :| r in Saved(run[i]) && KeyOf(r) == key;
    assert r in Saved(run[j]);
    if run[j].mem.Up? {
      assert r in run[j].mem.rows;
    }
    assert Next(c, run[j], run[j + 1], steps[j]);
  }

  function AllKeys(tasks: seq<string>): seq<Key>
  {
    if tasks == [] then []
    else
      var task := tasks[|tasks| - 1];
      AllKeys(tasks[..|tasks| - 1]) + [(task, Explorer), (task, Greppy)]
  }

  lemma {:induction false} AllKeysHold(tasks: seq<string>, task: string, arm: Arm)
    ensures (task, arm) in AllKeys(tasks) <==> task in tasks
    ensures |AllKeys(tasks)| == 2 * |tasks|
  {
    if tasks != [] {
      var n := |tasks| - 1;
      AllKeysHold(tasks[..n], task, arm);
      assert tasks == tasks[..n] + [tasks[n]];
      match arm
      case Explorer =>
      case Greppy =>
    }
  }

  lemma {:induction false} AllKeysDistinct(tasks: seq<string>)
    requires Distinct(tasks)
    ensures Distinct(AllKeys(tasks))
  {
    if tasks != [] {
      var n := |tasks| - 1;
      AllKeysDistinct(tasks[..n]);
      forall i | 0 <= i < |AllKeys(tasks[..n])| ensures AllKeys(tasks[..n])[i].0 != tasks[n] {
        AllKeysHold(tasks[..n], AllKeys(tasks[..n])[i].0, AllKeys(tasks[..n])[i].1);
      }
    }
  }

  function RowKeys(rows: seq<Row>): seq<Key>
  {
    seq(|rows|, i requires 0 <= i < |rows| => KeyOf(rows[i]))
  }

  lemma RowKeysHold(rows: seq<Row>)
    ensures forall key :: key in RowKeys(rows) <==> key in Keys(rows)
  {
    forall key | key in Keys(rows) ensures key in RowKeys(rows) {
      var i :| 0 <= i < |rows| && KeyOf(rows[i]) == key;
      assert RowKeys(rows)[i] == key;
    }
  }

  lemma CompletedKey(c: Config, completed: set<Key>, task: string, arm: Arm)
    requires forall j :: 0 <= j < |c.tasks| ==> TaskComplete(completed, c.tasks[j])
    requires task in c.tasks
    ensures (task, arm) in completed
  {
    var j :| 0 <= j < |c.tasks| && c.tasks[j] == task;
    assert TaskComplete(completed, c.tasks[j]);
    assert arm == Explorer || arm == Greppy;
  }

  lemma KeyInTasks(rows: seq<Row>, tasks: seq<string>, key: Key)
    requires RowsValid(rows, tasks) && key in Keys(rows)
    ensures key.0 in tasks
  {
    var i :| 0 <= i < |rows| && KeyOf(rows[i]) == key;
  }

  lemma FinishedKey(c: Config, s: State, task: string, arm: Arm)
    requires Invariant(c, s) && s.mem.Up? && s.mem.phase.Finished?
    ensures (task, arm) in Keys(s.mem.rows) <==> task in c.tasks
  {
    if (task, arm) in Keys(s.mem.rows) {
      KeyInTasks(s.mem.rows, c.tasks, (task, arm));
    }
    if task in c.tasks {
      CompletedKey(c, s.mem.completed, task, arm);
    }
  }

  lemma FinishedCount(c: Config, s: State)
    requires Invariant(c, s) && s.mem.Up? && s.mem.phase.Finished? && Distinct(c.tasks)
    ensures |s.mem.rows| == 2 * |c.tasks|
  {
    var rows := s.mem.rows;
    forall key: Key ensures key in AllKeys(c.tasks) <==> key in Keys(rows) {
      var (task, arm) := key;
      FinishedKey(c, s, task, arm);
      AllKeysHold(c.tasks, task, arm);
    }
    AllKeysHold(c.tasks, "", Explorer);
    AllKeysDistinct(c.tasks);
    DistinctSize(AllKeys(c.tasks));
    RowKeysHold(rows);
    DistinctSize(RowKeys(rows));
    assert Elements(AllKeys(c.tasks)) == Elements(RowKeys(rows));
  }

  /** A finished loop holds exactly one row for every task and arm, its checkpoint holds the same
      rows, and grading the checkpoint gives the same verdict as grading memory. */
  lemma FinishedIsComplete(c: Config, run: seq<State>, steps: seq<Step>, i: nat)
    requires IsHistory(c, run, steps) && i < |run| && Distinct(c.tasks)
    requires run[i].mem.Up? && run[i].mem.phase.Finished?
    ensures forall task, arm :: (task, arm) in Keys(run[i].mem.rows) <==> task in c.tasks
    ensures DistinctKeys(run[i].mem.rows) && |run[i].mem.rows| == 2 * |c.tasks|
    ensures multiset(Saved(run[i])) == multiset(run[i].mem.rows)
    ensures GradeOf(PairsOf(ByKey(Saved(run[i])), c.tasks), |c.tasks|)
         == GradeOf(PairsOf(ByKey(run[i].mem.rows), c.tasks), |c.tasks|)
  {
    HistoryInvariant(c, run, steps, i);
    var rows := run[i].mem.rows;
    forall task, arm ensures (task, arm) in Keys(rows) <==> task in c.tasks {
      FinishedKey(c, run[i], task, arm);
    }
    FinishedCount(c, run[i]);
    DistinctIsConsistent(rows);
    SameRowsSameIndex(rows, Saved(run[i]));
  }

  lemma DistinctIsConsistent(rows: seq<Row>)
    requires DistinctKeys(rows)
    ensures CodingGate.Consistent(rows)
  {
  }

  /** A boot as a given run is impossible exactly when there are results without a manifest, or with the
      manifest of another run. */
  lemma BootBlockedIff(c: Config, run: seq<State>, steps: seq<Step>, i: nat, identity: string)
    requires IsHistory(c, run, steps) && i < |run| && run[i].mem.Down?
    ensures (forall t: State, resume: bool :: !Next(c, run[i], t, Boot(resume, identity)))
       <==> run[i].results.Some? && run[i].manifest != Some(identity)
  {
    HistoryInvariant(c, run, steps, i);
    var s := run[i];
    if !(s.results.Some? && s.manifest != Some(identity)) {
      var booted := Up(identity, Saved(s), Keys(Saved(s)), 0, SavingResults(Head));
      assert Next(c, s, s.(mem := booted), Boot(true, identity));
    }
  }

  /** Nothing can happen any more: no process runs and none can boot, as whatever run. */
  ghost predicate Stuck(c: Config, s: State)
  {
    forall t: State, step: Step :: !Next(c, s, t, step)
  }

  /** Results without a manifest, and no process. */
  predicate HalfSaved(s: State) { s.mem.Down? && s.results.Some? && s.manifest.None? }

  /** A run directory is stuck, for ever and for every run, exactly when it holds results without a
      manifest and no process is left to write it. */
  lemma {:induction false} StuckIff(c: Config, run: seq<State>, steps: seq<Step>, i: nat)
    requires IsHistory(c, run, steps) && i < |run|
    ensures Stuck(c, run[i]) <==> HalfSaved(run[i])
  {
    HistoryInvariant(c, run, steps, i);
    var s := run[i];
    if s.mem.Up? {
      assert Next(c, s, s.(mem := Down), Crash);
    } else if !HalfSaved(s) {
      var identity := if s.manifest.Some? then s.manifest.value else "";
      var booted := Up(identity, Saved(s), Keys(Saved(s)), 0, SavingResults(Head));
      assert Next(c, s, s.(mem := booted), Boot(true, identity));
    }
  }

  /** While files are missing, the process is writing them. */
  ghost predicate FirstWrites(s: State)
  {
    && (s.mem.Up? && s.results.None? ==> s.mem.phase == SavingResults(Head))
    && (s.mem.Up? && s.results.Some? && s.manifest.None? ==> s.mem.phase == SavingManifest(Head))
  }

  /** Results without a manifest begin with the first save, and a crash is all that can preserve them. */
  ghost predicate FromFirstSave(s: State, t: State, step: Step)
  {
    t.results.Some? && t.manifest.None? ==>
      if t.mem.Up? then step == SaveResults && s.results.None? else step == Crash && s.mem.Up? && s.results.Some?
  }

  lemma {:induction false} NextFirstWrites(c: Config, s: State, t: State, step: Step)
    requires Invariant(c, s) && FirstWrites(s) && Next(c, s, t, step)
    ensures FirstWrites(t) && FromFirstSave(s, t, step)
  {
  }

  lemma {:induction false} HistoryFirstWrites(c: Config, run: seq<State>, steps: seq<Step>, i: nat)
    requires IsHistory(c, run, steps) && i < |run|
    ensures FirstWrites(run[i])
    ensures i > 0 ==> FromFirstSave(run[i - 1], run[i], steps[i - 1])
  {
    if i > 0 {
      HistoryFirstWrites(c, run, steps, i - 1);
      HistoryInvariant(c, run, steps, i - 1);
      assert Next(c, run[i - 1], run[i], steps[i - 1]);
      NextFirstWrites(c, run[i - 1], run[i], steps[i - 1]);
    }
  }

  /** There is one way to get stuck: a crash right after the very first results were saved. */
  lemma {:induction false} StuckOnlyByFirstCrash(c: Config, run: seq<State>, steps: seq<Step>, i: nat)
    requires IsHistory(c, run, steps) && i < |run| && Stuck(c, run[i])
    ensures i >= 2 && steps[i - 1] == Crash && steps[i - 2] == SaveResults && run[i - 2].results.None?
  {
    StuckIff(c, run, steps, i);
    HistoryFirstWrites(c, run, steps, i);
    if i >= 1 {
      assert Next(c, run[i - 1], run[i], steps[i - 1]);
      HistoryFirstWrites(c, run, steps, i - 1);
    }
  }

  /** Once written, the manifest names the same run for ever: whoever resumes is that run. */
  lemma {:induction false} IdentityKept(c: Config, run: seq<State>, steps: seq<Step>, i: nat, j: nat)
    requires IsHistory(c, run, steps) && i <= j < |run| && run[i].manifest.Some?
    ensures run[j].manifest == run[i].manifest
  {
    if i < j {
      IdentityKept(c, run, steps, i, j - 1);
      HistoryInvariant(c, run, steps, j - 1);
      assert Next(c, run[j - 1], run[j], steps[j - 1]);
    }
  }

  lemma FirstCheckpointCrash(c: Config, identity: string)
    ensures exists run: seq<State>, steps: seq<Step> ::
      && IsHistory(c, run, steps) && steps == [Boot(false, identity), SaveResults, Crash]
      && run[3].mem.Down? && run[3].results.Some? && run[3].manifest.None?
  {
    var s1 := INITIAL.(mem := Up(identity, [], Keys([]), 0, SavingResults(Head)));
    var s2 := s1.(results := Some(Ordered([], c.tasks)), mem := s1.mem.(phase := SavingManifest(Head)));
    var s3 := s2.(mem := Down);
    var run := [INITIAL, s1, s2, s3];
    assert IsHistory(c, run, [Boot(false, identity), SaveResults, Crash]);
  }

  // ------------------------------------------------------------- retries

  /** What one attempt at an arm comes to: a harness error, any other exception, a row spoiled by a
      provider error, or a row that stands. */
  datatype Attempt = HarnessFailure | OtherFailure | ProviderFlake(row: Row) | Measured(row: Row)

  const MAX_ATTEMPTS: nat := 5

  predicate Retryable(a: Attempt) { a.HarnessFailure? || a.ProviderFlake? }

  function RowOf(task: string, arm: Arm, a: Attempt): Row
  {
    if a.HarnessFailure? || a.OtherFailure? then FailureRow(task, arm) else a.row
  }

  /** Runs an arm up to five times. The first attempt that is not retried decides; if there is none,
      the fifth does: a row is kept and an exception becomes a failure row. (The
      comment beside the loop speaks of two retries; the loop makes four.) */
  method RunWithRetries(task: string, arm: Arm, attempts: seq<Attempt>) returns (row: Row, used: nat)
    requires |attempts| == MAX_ATTEMPTS
    ensures 1 <= used <= MAX_ATTEMPTS
    ensures forall i :: 0 <= i < used - 1 ==> Retryable(attempts[i])
    ensures used < MAX_ATTEMPTS ==> !Retryable(attempts[used - 1])
    ensures row == RowOf(task, arm, attempts[used - 1])
  {
    used := 0;
    row := FailureRow(task, arm);
    while used < MAX_ATTEMPTS
      invariant 0 <= used <= MAX_ATTEMPTS
      invariant forall i :: 0 <= i < used ==> Retryable(attempts[i])
      invariant used > 0 ==> row == RowOf(task, arm, attempts[used - 1])
    {
      var attempt := attempts[used];
      used := used + 1;
      match attempt
      case HarnessFailure => row := FailureRow(task, arm);
      case OtherFailure =>
        row := FailureRow(task, arm);
        return;
      case ProviderFlake(r) => row := r;
      case Measured(r) =>
        row := r;
        return;
    }
  }
}
