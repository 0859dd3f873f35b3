/** The three execution strategies of the crew engine (crewai-core's
    execution.rs). The work of a task is an injected `Perform` function.
    The thread pool and the cooperative scheduler are modelled as
    deterministic loops in task-list order, which is also the order in which
    the source collects errors, so every observable result is the same as
    for any interleaving. */
module CrewExecution {
  import opened Base
  import opened CrewErrors
  import opened CrewTasks

  /** The result of performing a task's work. */
  function Outcome(t: Task, perform: Perform): Result<(), CrewError>
  {
    perform(Serialize(t))
  }

  /** The message a failing task records in its status: "Task <id> failed: <error>". */
  function FailureMessage(t: Task, e: CrewError): string
  {
    "Task " + NatToString(t.id as int) + " failed: " + Display(e)
  }

  /** The terminal state of an attempted task. */
  function Settled(t: Task, perform: Perform): (r: Task)
    ensures r == t.(status := r.status)
    ensures Outcome(t, perform).Ok? <==> r.status == Completed
    ensures Outcome(t, perform).Err? ==> r.status == Failed(FailureMessage(t, Outcome(t, perform).error))
  {
    match Outcome(t, perform)
    case Ok(_) => SetStatus(t, Completed)
    case Err(e) => SetStatus(t, Failed(FailureMessage(t, e)))
  }

  predicate AllSucceed(ts: seq<Task>, perform: Perform)
  {
    forall i :: 0 <= i < |ts| ==> Outcome(ts[i], perform).Ok?
  }

  // -----------------------------------------------------------------------
  // Sequential, fail-fast
  // -----------------------------------------------------------------------

  /** Reference semantics of the sequential strategy: the tasks after the run
      and the overall result, defined task by task from the front. */
  function SequentialRun(ts: seq<Task>, perform: Perform): (seq<Task>, Result<(), CrewError>)
  {
    if ts == [] then ([], Ok(()))
    else
      match Outcome(ts[0], perform)
      case Ok(_) =>
        var rest := SequentialRun(ts[1..], perform);
        ([SetStatus(ts[0], Completed)] + rest.0, rest.1)
      case Err(e) =>
        ([SetStatus(ts[0], Failed(FailureMessage(ts[0], e)))] + ts[1..],
         Err(ExecutionError("Failed to execute task " + NatToString(ts[0].id as int) + ": " + Display(e))))
  }

  /** When every task succeeds, every task ends Completed and the run succeeds. */
  lemma {:induction false} SequentialAllSucceed(ts: seq<Task>, perform: Perform)
    requires AllSucceed(ts, perform)
    ensures SequentialRun(ts, perform).1 == Ok(())
    ensures |SequentialRun(ts, perform).0| == |ts|
    ensures forall i :: 0 <= i < |ts| ==> SequentialRun(ts, perform).0[i] == SetStatus(ts[i], Completed)
  {
    if ts != [] {
      assert Outcome(ts[0], perform).Ok?;
      SequentialAllSucceed(ts[1..], perform);
    }
  }

  /** Fail-fast: with the first failure at k, the tasks before k are Completed,
      task k is Failed with a message naming its id, the tasks after k are
      untouched, and the error names task k. */
  lemma {:induction false} SequentialFailFast(ts: seq<Task>, perform: Perform, k: nat)
    requires k < |ts| && Outcome(ts[k], perform).Err?
    requires AllSucceed(ts[..k], perform)
    ensures var (after, r) := SequentialRun(ts, perform);
      && |after| == |ts|
      && (forall i :: 0 <= i < k ==> after[i] == SetStatus(ts[i], Completed))
      && after[k] == SetStatus(ts[k], Failed(FailureMessage(ts[k], Outcome(ts[k], perform).error)))
      && (forall i :: k < i < |ts| ==> after[i] == ts[i])
      && r == Err(ExecutionError("Failed to execute task " + NatToString(ts[k].id as int) + ": "
                                 + Display(Outcome(ts[k], perform).error)))
  {
    if k > 0 {
      assert Outcome(ts[0], perform).Ok? by { assert ts[..k][0] == ts[0]; }
      assert ts[1..][..k - 1] == ts[..k][1..];
      SequentialFailFast(ts[1..], perform, k - 1);
      var rest := SequentialRun(ts[1..], perform).0;
      assert SequentialRun(ts, perform).0 == [SetStatus(ts[0], Completed)] + rest;
    }
  }

  /** A task list that agrees with the sequential run stopped at the first
      failure k is that run's final state. */
  lemma {:induction false} FailFastState(ts: seq<Task>, perform: Perform, k: nat, cur: seq<Task>)
    requires k < |ts| == |cur| && Outcome(ts[k], perform).Err?
    requires AllSucceed(ts[..k], perform)
    requires forall j :: 0 <= j < k ==> cur[j] == SetStatus(ts[j], Completed)
    requires cur[k] == SetStatus(ts[k], Failed(FailureMessage(ts[k], Outcome(ts[k], perform).error)))
    requires forall j :: k < j < |cur| ==> cur[j] == ts[j]
    ensures cur == SequentialRun(ts, perform).0
    ensures SequentialRun(ts, perform).1
            == Err(ExecutionError("Failed to execute task " + NatToString(ts[k].id as int) + ": "
                                  + Display(Outcome(ts[k], perform).error)))
  {
    SequentialFailFast(ts, perform, k);
  }

  /** A task list that agrees with the all-successful run is its final state. */
  lemma {:induction false} AllSucceedState(ts: seq<Task>, perform: Perform, cur: seq<Task>)
    requires |ts| == |cur| && AllSucceed(ts, perform)
    requires forall j :: 0 <= j < |cur| ==> cur[j] == SetStatus(ts[j], Completed)
    ensures cur == SequentialRun(ts, perform).0 && SequentialRun(ts, perform).1 == Ok(())
  {
    SequentialAllSucceed(ts, perform);
  }

  /** execute_tasks_sequentially: each task is set Running, performed, and set
      Completed or Failed; the first failure stops the loop. The ghost
      `writes` holds, for each task reached, the two statuses written to it
      in order. */
  method ExecuteTasksSequentially(tasks: array<Task>, perform: Perform)
    returns (r: Result<(), CrewError>, ghost writes: seq<(TaskStatus, TaskStatus)>)
    modifies tasks
    ensures tasks[..] == SequentialRun(old(tasks[..]), perform).0
    ensures r == SequentialRun(old(tasks[..]), perform).1
    ensures |writes| <= tasks.Length
    ensures forall j :: 0 <= j < |writes| ==> writes[j] == (Running, tasks[j].status)
  {
    ghost var original := tasks[..];
    writes := [];
    var i := 0;
    while i < tasks.Length
      invariant 0 <= i <= tasks.Length
      invariant AllSucceed(original[..i], perform)
      invariant forall j :: 0 <= j < i ==> tasks[j] == SetStatus(original[j], Completed)
      invariant forall j :: i <= j < tasks.Length ==> tasks[j] == original[j]
      invariant |writes| == i
      invariant forall j :: 0 <= j < i ==> writes[j] == (Running, Completed)
    {
      RunningKeepsWork(tasks[i], perform);
      tasks[i] := SetStatus(tasks[i], Running);
      match Outcome(tasks[i], perform) {
        case Ok(_) =>
          tasks[i] := SetStatus(tasks[i], Completed);
          writes := writes + [(Running, Completed)];
        case Err(e) =>
          var msg := FailureMessage(tasks[i], e);
          tasks[i] := SetStatus(tasks[i], Failed(msg));
          writes := writes + [(Running, Failed(msg))];
          r := Err(ExecutionError("Failed to execute task " + NatToString(tasks[i].id as int) + ": " + Display(e)));
          FailFastState(original, perform, i, tasks[..]);
          return;
      }
      assert original[..i + 1] == original[..i] + [original[i]];
      i := i + 1;
    }
    assert original[..i] == original;
    AllSucceedState(original, perform, tasks[..]);
    r := Ok(());
  }

  /** Marking a task Running changes neither its work nor its failure message. */
  lemma {:induction false} RunningKeepsWork(t: Task, perform: Perform)
    ensures Outcome(SetStatus(t, Running), perform) == Outcome(t, perform)
    ensures forall e :: FailureMessage(SetStatus(t, Running), e) == FailureMessage(t, e)
  {
    assert Serialize(SetStatus(t, Running)) == Serialize(t);
  }

  /** The failure messages of a task list, in list order. */
  function FailureMessages(ts: seq<Task>, perform: Perform): (ms: seq<string>)
    ensures |ms| <= |ts|
  {
    if ts == [] then []
    else
      var last := ts[|ts| - 1];
      FailureMessages(ts[..|ts| - 1], perform)
        + match FailureSlot(last, perform) case None => [] case Some(m) => [m]
  }

  /** There is no failure message exactly when every task succeeds. */
  lemma {:induction false} FailureMessagesEmptyIff(ts: seq<Task>, perform: Perform)
    ensures FailureMessages(ts, perform) == [] <==> AllSucceed(ts, perform)
  {
    if ts != [] {
      var init := ts[..|ts| - 1];
      FailureMessagesEmptyIff(init, perform);
      if AllSucceed(init, perform) && Outcome(ts[|ts| - 1], perform).Ok? {
        assert forall i :: 0 <= i < |ts| ==> Outcome(ts[i], perform).Ok? by {
          forall i | 0 <= i < |ts| ensures Outcome(ts[i], perform).Ok? {
            if i < |ts| - 1 { assert ts[i] == init[i]; }
          }
        }
      }
      if AllSucceed(ts, perform) {
        assert forall i :: 0 <= i < |init| ==> Outcome(init[i], perform).Ok? by {
          forall i | 0 <= i < |init| ensures Outcome(init[i], perform).Ok? { assert init[i] == ts[i]; }
        }
      }
    }
  }

  /** Failures are reported one message per failing task: with exactly one
      failing task k, the only message is k's. */
  lemma {:induction false} FailureMessagesSingle(ts: seq<Task>, perform: Perform, k: nat)
    requires k < |ts| && Outcome(ts[k], perform).Err?
    requires forall i :: 0 <= i < |ts| && i != k ==> Outcome(ts[i], perform).Ok?
    ensures FailureMessages(ts, perform) == [FailureMessage(ts[k], Outcome(ts[k], perform).error)]
  {
    var init := ts[..|ts| - 1];
    if k == |ts| - 1 {
      assert AllSucceed(init, perform) by {
        forall i | 0 <= i < |init| ensures Outcome(init[i], perform).Ok? { assert init[i] == ts[i]; }
      }
      FailureMessagesEmptyIff(init, perform);
    } else {
      assert init[k] == ts[k];
      forall i | 0 <= i < |init| && i != k ensures Outcome(init[i], perform).Ok? { assert init[i] == ts[i]; }
      FailureMessagesSingle(init, perform, k);
    }
  }

  /** The error a worker leaves beside its clone. */
  function FailureSlot(t: Task, perform: Perform): Option<string>
  {
    match Outcome(t, perform)
    case Ok(_) => None
    case Err(e) => Some(FailureMessage(t, e))
  }

  /** The aggregate result of a non-fail-fast strategy: success when nothing
      failed, otherwise one ExecutionError joining every message with ", ". */
  function Aggregate(header: string, messages: seq<string>): (r: Result<(), CrewError>)
    ensures r.Ok? <==> messages == []
    ensures r.Err? ==> r.error.ExecutionError? && StartsWith(r.error.msg, header)
  {
    if messages == [] then Ok(())
    else Err(ExecutionError(header + Join(messages, ", ")))
  }

  const RayonHeader := "Multiple task execution failures: "
  const TokioHeader := "Multiple async task failures: "

  /** execute_tasks_rayon: every task is attempted on a clone regardless of its
      siblings; the failure messages are joined with ", " in list order. The
      input is borrowed immutably; `clones` are the attempted copies, which the
      source discards. */
  method ExecuteTasksRayon(tasks: seq<Task>, perform: Perform)
    returns (r: Result<(), CrewError>, clones: seq<Task>)
    ensures r == Aggregate(RayonHeader, FailureMessages(tasks, perform))
    ensures r.Ok? <==> AllSucceed(tasks, perform)
    ensures |clones| == |tasks|
    ensures forall i :: 0 <= i < |tasks| ==> clones[i] == Settled(tasks[i], perform)
  {
    // One (clone, error) cell per task, as the source's Arc<Mutex<(Task, Option<String>)>>.
    var cells := new (Task, Option<string>)[|tasks|](i requires 0 <= i < |tasks| => (tasks[i], None));
    var i := 0;
    while i < cells.Length
      invariant 0 <= i <= cells.Length == |tasks|
      invariant forall j :: 0 <= j < i ==> cells[j] == (Settled(tasks[j], perform), FailureSlot(tasks[j], perform))
      invariant forall j :: i <= j < |tasks| ==> cells[j] == (tasks[j], None)
    {
      var (task, _) := cells[i];
      RunningKeepsWork(task, perform);
      task := SetStatus(task, Running);
      match Outcome(task, perform) {
        case Ok(_) =>
          cells[i] := (SetStatus(task, Completed), None);
        case Err(e) =>
          var msg := FailureMessage(task, e);
          cells[i] := (SetStatus(task, Failed(msg)), Some(msg));
      }
      assert cells[i] == (Settled(tasks[i], perform), FailureSlot(tasks[i], perform));
      i := i + 1;
    }
    var errors := CollectFailures(tasks, cells, perform);
    FailureMessagesEmptyIff(tasks, perform);
    r := if errors != [] then Err(ExecutionError(RayonHeader + Join(errors, ", ")))
         else Ok(());
    clones := seq(|tasks|, k requires 0 <= k < |tasks| reads cells => cells[k].0);
  }

  /** The collecting pass of execute_tasks_rayon: the recorded errors, in
      list order. */
  method CollectFailures(tasks: seq<Task>, cells: array<(Task, Option<string>)>, perform: Perform)
    returns (errors: seq<string>)
    requires cells.Length == |tasks|
    requires forall j :: 0 <= j < |tasks| ==> cells[j].1 == FailureSlot(tasks[j], perform)
    ensures errors == FailureMessages(tasks, perform)
  {
    errors := [];
    var j := 0;
    while j < cells.Length
      invariant 0 <= j <= cells.Length
      invariant errors == FailureMessages(tasks[..j], perform)
    {
      assert tasks[..j + 1][..j] == tasks[..j];
      if cells[j].1.Some? {
        errors := errors + [cells[j].1.value];
      }
      j := j + 1;
    }
    assert tasks[..j] == tasks;
  }

  // -----------------------------------------------------------------------
  // Cooperative scheduler (Tokio): spawn all, join all, aggregate
  // -----------------------------------------------------------------------

  /** What joining one spawned activity yields: the activity's own result, or
      the panic that aborted it. */
  datatype Joined = Finished(result: Result<(), string>) | Panicked(info: string)

  /** A spawned activity: it sets Running, performs the task unless it panics
      inside the work, and reports "Task <id> failed: <error>" on failure. */
  function Activity(t: Task, perform: Perform, panics: Task -> Option<string>): Joined
  {
    match panics(t)
    case Some(info) => Panicked(info)
    case None =>
      match Outcome(t, perform)
      case Ok(_) => Finished(Ok(()))
      case Err(e) => Finished(Err(FailureMessage(t, e)))
  }

  /** The shared status cell of one activity after it has resolved: a panic
      inside the work leaves it Running. */
  function ActivityStatus(t: Task, perform: Perform, panics: Task -> Option<string>): (s: TaskStatus)
    ensures s == Pending ==> false
    ensures s == Running <==> panics(t).Some?
  {
    match Activity(t, perform, panics)
    case Panicked(_) => Running
    case Finished(Ok(_)) => Completed
    case Finished(Err(m)) => Failed(m)
  }

  /** The error an activity contributes when joined, if any. */
  function JoinError(j: Joined): Option<string>
  {
    match j
    case Finished(Ok(_)) => None
    case Finished(Err(m)) => Some(m)
    case Panicked(info) => Some("Task panicked: " + info)
  }

  /** The errors of all activities, in spawn (task-list) order. */
  function TokioErrors(ts: seq<Task>, perform: Perform, panics: Task -> Option<string>): (es: seq<string>)
    ensures |es| <= |ts|
  {
    if ts == [] then []
    else
      var last := ts[|ts| - 1];
      TokioErrors(ts[..|ts| - 1], perform, panics)
        + match JoinError(Activity(last, perform, panics)) case None => [] case Some(m) => [m]
  }

  predicate AllFinishOk(ts: seq<Task>, perform: Perform, panics: Task -> Option<string>)
  {
    forall i :: 0 <= i < |ts| ==> panics(ts[i]).None? && Outcome(ts[i], perform).Ok?
  }

  /** The concurrent run fails exactly when some activity panics or some task fails. */
  lemma {:induction false} TokioErrorsEmptyIff(ts: seq<Task>, perform: Perform, panics: Task -> Option<string>)
    ensures TokioErrors(ts, perform, panics) == [] <==> AllFinishOk(ts, perform, panics)
  {
    if ts != [] {
      var init := ts[..|ts| - 1];
      TokioErrorsEmptyIff(init, perform, panics);
      if AllFinishOk(ts, perform, panics) {
        forall i | 0 <= i < |init| ensures panics(init[i]).None? && Outcome(init[i], perform).Ok? {
          assert init[i] == ts[i];
        }
      }
      if AllFinishOk(init, perform, panics) && TokioErrors(ts, perform, panics) == [] {
        forall i | 0 <= i < |ts| ensures panics(ts[i]).None? && Outcome(ts[i], perform).Ok? {
          if i < |init| { assert init[i] == ts[i]; }
        }
      }
    }
  }

  /** Without panics, the concurrent strategy reports the same messages as the
      thread-pool strategy. */
  lemma {:induction false} TokioMatchesRayonWithoutPanics(ts: seq<Task>, perform: Perform, panics: Task -> Option<string>)
    requires forall i :: 0 <= i < |ts| ==> panics(ts[i]).None?
    ensures TokioErrors(ts, perform, panics) == FailureMessages(ts, perform)
  {
    if ts != [] {
      var init := ts[..|ts| - 1];
      forall i | 0 <= i < |init| ensures panics(init[i]).None? { assert init[i] == ts[i]; }
      TokioMatchesRayonWithoutPanics(init, perform, panics);
    }
  }

  /** execute_tasks_tokio: a status vector with one Pending entry per task;
      one activity per task is launched before any is joined; every activity
      runs to completion; the errors, including "Task panicked: ..." for an
      aborted activity, are joined in spawn order. The final status vector,
      which the source drops, is returned as `statuses`. */
  method ExecuteTasksTokio(tasks: seq<Task>, perform: Perform, panics: Task -> Option<string>)
    returns (r: Result<(), CrewError>, statuses: seq<TaskStatus>)
    ensures r == Aggregate(TokioHeader, TokioErrors(tasks, perform, panics))
    ensures r.Ok? <==> AllFinishOk(tasks, perform, panics)
    ensures |statuses| == |tasks|
    ensures forall i :: 0 <= i < |tasks| ==> statuses[i] == ActivityStatus(tasks[i], perform, panics)
  {
    var cells := new TaskStatus[|tasks|](i => Pending);
    var handles := new Joined[|tasks|](i => Finished(Ok(())));
    var i := 0;
    while i < cells.Length
      invariant 0 <= i <= cells.Length == handles.Length == |tasks|
      invariant forall j :: 0 <= j < i ==> cells[j] == ActivityStatus(tasks[j], perform, panics)
      invariant forall j :: 0 <= j < i ==> handles[j] == Activity(tasks[j], perform, panics)
      invariant forall j :: i <= j < cells.Length ==> cells[j] == Pending
    {
      cells[i] := Running;
      match panics(tasks[i]) {
        case Some(info) =>
          handles[i] := Panicked(info);
        case None =>
          match Outcome(tasks[i], perform) {
            case Ok(_) =>
              cells[i] := Completed;
              handles[i] := Finished(Ok(()));
            case Err(e) =>
              var msg := FailureMessage(tasks[i], e);
              cells[i] := Failed(msg);
              handles[i] := Finished(Err(msg));
          }
      }
      assert cells[i] == ActivityStatus(tasks[i], perform, panics);
      i := i + 1;
    }
    var errors := JoinAll(tasks, handles, perform, panics);
    TokioErrorsEmptyIff(tasks, perform, panics);
    r := if errors != [] then Err(ExecutionError(TokioHeader + Join(errors, ", ")))
         else Ok(());
    statuses := cells[..];
  }

  /** The joining pass of execute_tasks_tokio: every handle is awaited in
      spawn order; a failed task contributes its message and a panicked
      activity "Task panicked: <info>". */
  method JoinAll(tasks: seq<Task>, handles: array<Joined>, perform: Perform, panics: Task -> Option<string>)
    returns (errors: seq<string>)
    requires handles.Length == |tasks|
    requires forall j :: 0 <= j < |tasks| ==> handles[j] == Activity(tasks[j], perform, panics)
    ensures errors == TokioErrors(tasks, perform, panics)
  {
    errors := [];
    var j := 0;
    while j < handles.Length
      invariant 0 <= j <= handles.Length
      invariant errors == TokioErrors(tasks[..j], perform, panics)
    {
      assert tasks[..j + 1][..j] == tasks[..j];
      match handles[j] {
        case Finished(Ok(_)) =>
        case Finished(Err(m)) => errors := errors + [m];
        case Panicked(info) => errors := errors + ["Task panicked: " + info];
      }
      j := j + 1;
    }
    assert tasks[..j] == tasks;
  }
}
