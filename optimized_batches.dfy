/** The batched parallel execution of the optimised integration
    (AutoGroq/src/integrations/optimized_crewai_integration.py): the sorted
    task list is cut into consecutive batches of task_batch_size tasks, and
    each batch runs on a temporary parallel crew that gets one agent per
    distinct agent name of the batch, tasks without an agent name being
    handed to a shared "DefaultAgent". The Python task objects are shared
    between the caller's list and the batch, so the agent-name assignment is
    modelled as an update in place of an array of tasks. */
module OptimizedBatches {
  import opened Base
  import opened CrewErrors
  import opened CrewTasks
  import opened CrewAgents
  import opened CrewExecution
  import CrewModel

  // -----------------------------------------------------------------------
  // Cutting a list into batches

  /** The number of tasks a full batch holds: the loop flushes as soon as the
      batch holds at least task_batch_size tasks, so a size below 1 acts as 1. */
  function Cap(batchSize: int): (c: nat)
    ensures c >= 1 && c >= batchSize
    ensures batchSize >= 1 ==> c == batchSize
  {
    if batchSize < 1 then 1 else batchSize
  }

  /** Reference split: consecutive pieces of n elements, the last one possibly shorter. */
  function Chunks<T>(s: seq<T>, n: nat): seq<seq<T>>
    requires n >= 1
    decreases |s|
  {
    if s == [] then []
    else if |s| <= n then [s]
    else [s[..n]] + Chunks(s[n..], n)
  }

  function Flatten<T>(bs: seq<seq<T>>): seq<T>
  {
    if bs == [] then [] else bs[0] + Flatten(bs[1..])
  }

  /** Batching loses and reorders nothing. */
  lemma {:induction false} ChunksFlatten<T>(s: seq<T>, n: nat)
    requires n >= 1
    ensures Flatten(Chunks(s, n)) == s
    decreases |s|
  {
    if s == [] {
    } else if |s| <= n {
      assert Chunks(s, n) == [s];
      FlattenCons(s, []);
      assert s + [] == s;
    } else {
      ChunksFlatten(s[n..], n);
      assert Chunks(s, n) == [s[..n]] + Chunks(s[n..], n);
      FlattenCons(s[..n], Chunks(s[n..], n));
      assert s[..n] + s[n..] == s;
    }
  }

  lemma FlattenCons<T>(x: seq<T>, rest: seq<seq<T>>)
    ensures Flatten([x] + rest) == x + Flatten(rest)
  {
    assert ([x] + rest)[0] == x && ([x] + rest)[1..] == rest;
  }

  /** Every batch holds between 1 and n tasks, and every batch but the last exactly n. */
  lemma {:induction false} ChunksShape<T>(s: seq<T>, n: nat)
    requires n >= 1
    ensures forall i :: 0 <= i < |Chunks(s, n)| ==> 1 <= |Chunks(s, n)[i]| <= n
    ensures forall i :: 0 <= i < |Chunks(s, n)| - 1 ==> |Chunks(s, n)[i]| == n
    decreases |s|
  {
    if |s| > n {
      ChunksShape(s[n..], n);
      var c, rest := Chunks(s, n), Chunks(s[n..], n);
      assert c == [s[..n]] + rest;
      forall i | 1 <= i < |c| ensures c[i] == rest[i - 1] { }
    }
  }

  /** A full batch at the front is split off unchanged. */
  lemma {:induction false} ChunksHead<T>(c: seq<T>, rest: seq<T>, n: nat)
    requires n >= 1 && |c| == n
    ensures Chunks(c + rest, n) == [c] + Chunks(rest, n)
  {
    if rest == [] {
      assert c + rest == c;
    } else {
      assert (c + rest)[..n] == c;
      assert (c + rest)[n..] == rest;
    }
  }

  /** A short non-empty remainder is one batch. */
  lemma {:induction false} ChunksLast<T>(c: seq<T>, n: nat)
    requires 1 <= |c| <= n
    ensures Chunks(c, n) == [c]
  {
  }

  // -----------------------------------------------------------------------
  // The crew of one batch

  /** Python truthiness of an optional agent name. */
  predicate HasAgentName(t: Task)
  {
    t.agent_name.Some? && t.agent_name.value != ""
  }

  /** The agent a batch task is handled by. */
  function BatchAgent(t: Task): (a: Agent)
    ensures a.name != "" && a.role != ""
    ensures HasAgentName(t) ==> a.name == t.agent_name.value
    ensures !HasAgentName(t) ==> a.name == "DefaultAgent"
  {
    if HasAgentName(t) then
      Agent(t.agent_name.value, "Process " + t.agent_name.value + " related tasks",
            Some("Task processing and analysis"))
    else
      Agent("DefaultAgent", "Process general tasks", Some("General task processing"))
  }

  /** A task as it leaves the batch: a task without an agent name is assigned
      to "DefaultAgent"; nothing else changes. */
  function AssignAgent(t: Task): (r: Task)
    ensures HasAgentName(t) ==> r == t
  {
    if HasAgentName(t) then t else t.(agent_name := Some("DefaultAgent"))
  }

  /** Assignment only ever sets the agent name, to the name of the task's batch agent. */
  lemma {:induction false} AssignAgentMeaning(t: Task)
    ensures AssignAgent(t).agent_name == Some(BatchAgent(t).name)
    ensures AssignAgent(t) == t.(agent_name := AssignAgent(t).agent_name)
  {
  }

  function Assigned(ts: seq<Task>): (r: seq<Task>)
    ensures |r| == |ts|
    ensures forall i :: 0 <= i < |ts| ==> r[i] == AssignAgent(ts[i])
  {
    seq(|ts|, i requires 0 <= i < |ts| => AssignAgent(ts[i]))
  }

  /** The agents added while scanning ts, given the names already used:
      one per agent name, at its first occurrence. */
  function BatchAgents(ts: seq<Task>, used: set<string>): seq<Agent>
  {
    if ts == [] then []
    else
      var a := BatchAgent(ts[0]);
      if a.name in used then BatchAgents(ts[1..], used)
      else [a] + BatchAgents(ts[1..], used + {a.name})
  }

  lemma {:induction false} BatchAgentsCons(t: Task, rest: seq<Task>, used: set<string>)
    ensures BatchAgents([t] + rest, used) ==
              if BatchAgent(t).name in used then BatchAgents(rest, used)
              else [BatchAgent(t)] + BatchAgents(rest, used + {BatchAgent(t).name})
  {
    assert ([t] + rest)[0] == t && ([t] + rest)[1..] == rest;
  }

  /** The agents of a batch crew are named after distinct, previously unused
      names, and every task of the batch finds its agent among them or
      among the names used before. */
  lemma {:induction false} BatchAgentsNames(ts: seq<Task>, used: set<string>)
    ensures forall i, j :: 0 <= i < j < |BatchAgents(ts, used)| ==>
              BatchAgents(ts, used)[i].name != BatchAgents(ts, used)[j].name
    ensures forall a :: a in BatchAgents(ts, used) ==> a.name !in used
    ensures forall t :: t in ts ==>
              (BatchAgent(t).name in used || CrewModel.HasAgentNamed(BatchAgents(ts, used), BatchAgent(t).name))
    decreases |ts|
  {
    if ts != [] {
      var a := BatchAgent(ts[0]);
      if a.name in used {
        BatchAgentsNames(ts[1..], used);
        forall t | t in ts ensures BatchAgent(t).name in used
          || CrewModel.HasAgentNamed(BatchAgents(ts, used), BatchAgent(t).name)
        {
          if t != ts[0] {
            assert t in ts[1..];
          }
        }
      } else {
        var u := used + {a.name};
        var rest := BatchAgents(ts[1..], u);
        BatchAgentsNames(ts[1..], u);
        assert BatchAgents(ts, used) == [a] + rest;
        forall i, j | 0 <= i < j < |[a] + rest| ensures ([a] + rest)[i].name != ([a] + rest)[j].name {
          if i == 0 {
            assert ([a] + rest)[j] == rest[j - 1];
            assert rest[j - 1] in rest;
          } else {
            assert ([a] + rest)[i] == rest[i - 1] && ([a] + rest)[j] == rest[j - 1];
          }
        }
        forall t | t in ts ensures BatchAgent(t).name in used
          || CrewModel.HasAgentNamed([a] + rest, BatchAgent(t).name)
        {
          if t == ts[0] {
            assert a in [a] + rest;
          } else {
            assert t in ts[1..];
            if BatchAgent(t).name !in u {
              var b :| b in rest && b.name == BatchAgent(t).name;
              assert b in [a] + rest;
            }
          }
        }
      }
    }
  }

  /** The temporary crew of a non-empty batch always passes validation: it
      has an agent, a task, and an agent for every task's name. */
  lemma {:induction false} BatchCrewValid(ts: seq<Task>)
    requires ts != []
    ensures CrewModel.ValidateLists(BatchAgents(ts, {}), Assigned(ts)).Ok?
  {
    BatchAgentsNames(ts, {});
    var agents, given := BatchAgents(ts, {}), Assigned(ts);
    assert BatchAgent(ts[0]).name !in {};
    assert agents != [];
    forall t | t in given && t.agent_name.Some? ensures CrewModel.HasAgentNamed(agents, t.agent_name.value) {
      var i :| 0 <= i < |given| && given[i] == t;
      assert ts[i] in ts;
    }
  }

  /** What running one batch on its temporary crew returns: the crew's
      validation error, else the rayon strategy's aggregate of failures. */
  function BatchOutcome(batch: seq<Task>, perform: Perform): Result<(), CrewError>
  {
    var v := CrewModel.ValidateLists(BatchAgents(batch, {}), Assigned(batch));
    if v.Err? then v else Aggregate(RayonHeader, FailureMessages(Assigned(batch), perform))
  }

  /** An empty batch is refused for lack of an agent; a non-empty one fails
      exactly when one of its (agent-assigned) tasks fails. */
  lemma {:induction false} BatchOutcomeMeaning(batch: seq<Task>, perform: Perform)
    ensures batch == [] ==> BatchOutcome(batch, perform) == Err(InvalidConfig("Crew must have at least one agent"))
    ensures batch != [] ==> (BatchOutcome(batch, perform).Ok? <==> AllSucceed(Assigned(batch), perform))
  {
    if batch != [] {
      BatchCrewValid(batch);
      FailureMessagesEmptyIff(Assigned(batch), perform);
    }
  }

  /** The name of the temporary crew: "batch_" and the whole seconds of the clock. */
  function BatchName(now: nat): (s: string)
    ensures StartsWith(s, "batch_") && s != ""
  {
    "batch_" + NatToString(now)
  }

  /** One step of the first pass: the agent of t is added exactly when its
      name is new. */
  lemma {:induction false} AgentsStep(agents: seq<Agent>, t: Task, rest: seq<Task>, used: set<string>, target: seq<Agent>)
    requires agents + BatchAgents([t] + rest, used) == target
    ensures BatchAgent(t).name in used ==> agents + BatchAgents(rest, used + {BatchAgent(t).name}) == target
    ensures BatchAgent(t).name !in used ==>
              (agents + [BatchAgent(t)]) + BatchAgents(rest, used + {BatchAgent(t).name}) == target
  {
    BatchAgentsCons(t, rest, used);
    if BatchAgent(t).name in used {
      assert used + {BatchAgent(t).name} == used;
    }
    ConcatAssoc(agents, [BatchAgent(t)], BatchAgents(rest, used + {BatchAgent(t).name}));
  }

  /** The body of the first pass for one task: a task with an agent name
      gets an agent of that name unless one was added already; a task
      without one gets the shared default agent (added once) and is assigned
      to it. Returns the names used so far and the task as it leaves. */
  method HandleBatchTask(crew: CrewModel.Crew, t: Task, used: set<string>)
    returns (usedAfter: set<string>, given: Task)
    modifies crew
    ensures crew.agents == if BatchAgent(t).name in used then old(crew.agents) else old(crew.agents) + [BatchAgent(t)]
    ensures usedAfter == used + {BatchAgent(t).name}
    ensures given == AssignAgent(t)
    ensures crew.name == old(crew.name) && crew.process == old(crew.process) && crew.tasks == old(crew.tasks)
  {
    usedAfter, given := used, t;
    if t.agent_name.Some? && t.agent_name.value != "" {
      var name := t.agent_name.value;
      if name !in used {
        crew.AddAgent(Agent(name, "Process " + name + " related tasks", Some("Task processing and analysis")));
        usedAfter := used + {name};
      }
    } else {
      if "DefaultAgent" !in used {
        crew.AddAgent(Agent("DefaultAgent", "Process general tasks", Some("General task processing")));
        usedAfter := used + {"DefaultAgent"};
      }
      given := t.(agent_name := Some("DefaultAgent"));
    }
  }

  /** The task list once the tasks lo..j-1 have left their batch. */
  function Patched(orig: seq<Task>, lo: int, j: int): (r: seq<Task>)
    ensures |r| == |orig|
    ensures forall k :: 0 <= k < |orig| ==> r[k] == if lo <= k < j then AssignAgent(orig[k]) else orig[k]
  {
    seq(|orig|, k requires 0 <= k < |orig| => if lo <= k < j then AssignAgent(orig[k]) else orig[k])
  }

  lemma {:induction false} PatchedStep(orig: seq<Task>, lo: int, j: int)
    requires 0 <= lo <= j < |orig|
    ensures Patched(orig, lo, j)[j := AssignAgent(orig[j])] == Patched(orig, lo, j + 1)
  {
    var a, b := Patched(orig, lo, j)[j := AssignAgent(orig[j])], Patched(orig, lo, j + 1);
    assert forall k :: 0 <= k < |orig| ==> a[k] == b[k];
  }

  /** Handling two adjacent batches handles their union. */
  lemma {:induction false} PatchedJoin(orig: seq<Task>, start: int, i: int)
    requires 0 <= start <= i <= |orig|
    ensures Patched(Patched(orig, 0, start), start, i) == Patched(orig, 0, i)
  {
  }

  lemma {:induction false} PatchedSlices(orig: seq<Task>, lo: int, hi: int)
    requires 0 <= lo <= hi <= |orig|
    ensures Patched(orig, 0, lo)[lo..hi] == orig[lo..hi]
    ensures Patched(orig, lo, hi)[lo..hi] == Assigned(orig[lo..hi])
  {
  }

  /** The first pass of _execute_batch over tasks[lo..hi]: adds an agent the
      first time each agent name is met and assigns agent-less tasks to
      "DefaultAgent" in place. */
  method AddBatchAgents(tasks: array<Task>, lo: int, hi: int, crew: CrewModel.Crew)
    requires 0 <= lo <= hi <= tasks.Length && crew.agents == []
    modifies tasks, crew
    ensures tasks[..] == Patched(old(tasks[..]), lo, hi)
    ensures crew.agents == BatchAgents(old(tasks[lo..hi]), {})
    ensures crew.name == old(crew.name) && crew.process == old(crew.process) && crew.tasks == old(crew.tasks)
  {
    ghost var orig := tasks[..];
    ghost var batch := tasks[lo..hi];
    var used: set<string> := {};
    var j := lo;
    while j < hi
      invariant lo <= j <= hi
      invariant crew.agents + BatchAgents(orig[j..hi], used) == BatchAgents(batch, {})
      invariant tasks[..] == Patched(orig, lo, j)
      invariant crew.name == old(crew.name) && crew.process == old(crew.process) && crew.tasks == old(crew.tasks)
    {
      var t := tasks[j];
      assert t == orig[j];
      PatchedStep(orig, lo, j);
      SliceCons(orig, j, hi);
      AgentsStep(crew.agents, t, orig[j + 1..hi], used, BatchAgents(batch, {}));
      var given;
      used, given := HandleBatchTask(crew, t, used);
      tasks[j] := given;
      j := j + 1;
    }
    assert orig[hi..hi] == [];
    AppendEmpty(crew.agents, BatchAgents(orig[hi..hi], used));
  }

  /** The second pass of _execute_batch: adds the batch tasks in order. */
  method AddBatchTasks(tasks: array<Task>, lo: int, hi: int, crew: CrewModel.Crew)
    requires 0 <= lo <= hi <= tasks.Length && crew.tasks == []
    modifies crew
    ensures crew.tasks == tasks[lo..hi]
    ensures crew.name == old(crew.name) && crew.process == old(crew.process) && crew.agents == old(crew.agents)
  {
    var j := lo;
    while j < hi
      invariant lo <= j <= hi
      invariant crew.tasks == tasks[lo..j]
      invariant crew.name == old(crew.name) && crew.process == old(crew.process) && crew.agents == old(crew.agents)
    {
      crew.AddTask(tasks[j]);
      assert tasks[lo..j + 1] == tasks[lo..j] + [tasks[j]];
      j := j + 1;
    }
  }

  /** _execute_batch on the batch tasks[lo..hi]: assigns agent-less tasks to
      "DefaultAgent" in place, builds the temporary parallel crew (agents in
      first-use order, then the tasks) and runs it with the rayon strategy. */
  method ExecuteBatch(tasks: array<Task>, lo: int, hi: int, now: nat, perform: Perform)
    returns (r: Result<(), CrewError>, crew: CrewModel.Crew)
    requires 0 <= lo <= hi <= tasks.Length
    modifies tasks
    ensures fresh(crew)
    ensures tasks[..] == Patched(old(tasks[..]), lo, hi)
    ensures crew.name == BatchName(now) && crew.process == "parallel"
    ensures crew.agents == BatchAgents(old(tasks[lo..hi]), {}) && crew.tasks == Assigned(old(tasks[lo..hi]))
    ensures r == BatchRunner(perform)(old(tasks[lo..hi]))
  {
    ghost var orig := tasks[..];
    ghost var batch := tasks[lo..hi];
    crew := new CrewModel.Crew(BatchName(now), "parallel");
    AddBatchAgents(tasks, lo, hi, crew);
    AddBatchTasks(tasks, lo, hi, crew);
    PatchedSlices(orig, lo, hi);
    assert crew.tasks == Assigned(batch);
    assert crew.Validate() == CrewModel.ValidateLists(BatchAgents(batch, {}), Assigned(batch));
    r := crew.ExecuteParallelRayon(perform);
    assert r == BatchOutcome(batch, perform);
  }

  // -----------------------------------------------------------------------
  // Running the batches one after the other

  /** The run of one batch, as a value the batch loop can be given. */
  function BatchRunner(perform: Perform): seq<Task> -> Result<(), CrewError>
  {
    b => BatchOutcome(b, perform)
  }

  /** Runs the batches in order and stops at the first one that raises;
      returns that outcome and the number of elements the batches run so far hold. */
  function RunBatches<T>(bs: seq<seq<T>>, run: seq<T> -> Result<(), CrewError>): (Result<(), CrewError>, nat)
  {
    if bs == [] then (Ok(()), 0)
    else
      var o := run(bs[0]);
      if o.Err? then (o, |bs[0]|)
      else
        var rest := RunBatches(bs[1..], run);
        (rest.0, |bs[0]| + rest.1)
  }

  /** Once some batches have all gone through, the run of the remaining ones decides. */
  lemma {:induction false} RunBatchesAfter<T>(done: seq<seq<T>>, more: seq<seq<T>>,
                                              run: seq<T> -> Result<(), CrewError>, n: nat)
    requires RunBatches(done, run) == (Ok(()), n)
    ensures RunBatches(done + more, run) == (RunBatches(more, run).0, n + RunBatches(more, run).1)
    decreases |done|
  {
    if done == [] {
      assert done + more == more;
    } else {
      assert (done + more)[0] == done[0];
      assert (done + more)[1..] == done[1..] + more;
      RunBatchesAfter(done[1..], more, run, n - |done[0]|);
    }
  }

  /** The loop state of _execute_parallel_optimized: the batches run so far
      all went through, and together with the batches of what is left they
      are the batches of the whole list. */
  ghost predicate BatchLoop<T>(whole: seq<T>, done: seq<seq<T>>, start: nat, cap: nat, run: seq<T> -> Result<(), CrewError>)
    requires cap >= 1
  {
    && start <= |whole|
    && done + Chunks(whole[start..], cap) == Chunks(whole, cap)
    && RunBatches(done, run) == (Ok(()), start)
  }

  lemma {:induction false} BatchLoopInit<T>(whole: seq<T>, cap: nat, run: seq<T> -> Result<(), CrewError>)
    requires cap >= 1
    ensures BatchLoop(whole, [], 0, cap, run)
  {
    assert whole[0..] == whole;
  }

  /** Running a full batch either keeps the loop state or decides the run. */
  lemma {:induction false} BatchLoopStep<T>(whole: seq<T>, done: seq<seq<T>>, start: nat, i: nat, cap: nat,
                         run: seq<T> -> Result<(), CrewError>)
    requires cap >= 1 && BatchLoop(whole, done, start, cap, run)
    requires start <= i <= |whole| && i - start == cap
    ensures run(whole[start..i]).Ok? ==> BatchLoop(whole, done + [whole[start..i]], i, cap, run)
    ensures run(whole[start..i]).Err? ==> RunBatches(Chunks(whole, cap), run) == (run(whole[start..i]), i)
  {
    var b := whole[start..i];
    var more := Chunks(whole[i..], cap);
    assert whole[start..] == b + whole[i..];
    ChunksHead(b, whole[i..], cap);
    ConcatAssoc(done, [b], more);
    RunBatchesAfter(done, [b], run, start);
    if run(b).Err? {
      RunBatchesAfter(done, [b] + more, run, start);
      assert ([b] + more)[0] == b;
    }
  }

  /** After the last element, the final partial batch (if any) decides the run. */
  lemma {:induction false} BatchLoopEnd<T>(whole: seq<T>, done: seq<seq<T>>, start: nat, cap: nat,
                        run: seq<T> -> Result<(), CrewError>)
    requires cap >= 1 && BatchLoop(whole, done, start, cap, run)
    requires |whole| - start < cap
    ensures start < |whole| ==> RunBatches(Chunks(whole, cap), run) == (run(whole[start..]), |whole|)
    ensures start == |whole| ==> RunBatches(Chunks(whole, cap), run) == (Ok(()), start)
  {
    if start < |whole| {
      var b := whole[start..];
      ChunksLast(b, cap);
      RunBatchesAfter(done, [b], run, start);
      assert [b][0] == b && [b][1..] == [];
      if run(b).Ok? {
        assert run(b).value == ();
      }
      assert RunBatches([b], run) == (run(b), |b|);
      assert Chunks(whole, cap) == done + [b];
    } else {
      assert whole[start..] == [];
      AppendEmpty(done, Chunks(whole[start..], cap));
    }
  }

  lemma {:induction false} AllSucceedAssignedConcat(a: seq<Task>, b: seq<Task>, perform: Perform)
    ensures AllSucceed(Assigned(a + b), perform) <==>
              AllSucceed(Assigned(a), perform) && AllSucceed(Assigned(b), perform)
  {
    var whole := Assigned(a + b);
    if AllSucceed(whole, perform) {
      forall i | 0 <= i < |b| ensures Outcome(Assigned(b)[i], perform).Ok? {
        assert (a + b)[|a| + i] == b[i];
        assert whole[|a| + i] == Assigned(b)[i];
      }
      forall i | 0 <= i < |a| ensures Outcome(Assigned(a)[i], perform).Ok? {
        assert (a + b)[i] == a[i];
        assert whole[i] == Assigned(a)[i];
      }
    }
    if AllSucceed(Assigned(a), perform) && AllSucceed(Assigned(b), perform) {
      forall i | 0 <= i < |whole| ensures Outcome(whole[i], perform).Ok? {
        if i < |a| {
          assert (a + b)[i] == a[i];
        } else {
          assert (a + b)[i] == b[i - |a|];
        }
      }
    }
  }

  /** Running non-empty batches succeeds exactly when every task of every
      batch succeeds once assigned an agent, and then it has run every task. */
  lemma {:induction false} RunBatchesOkIff(bs: seq<seq<Task>>, perform: Perform)
    requires forall i :: 0 <= i < |bs| ==> bs[i] != []
    ensures RunBatches(bs, BatchRunner(perform)).0.Ok? <==> AllSucceed(Assigned(Flatten(bs)), perform)
    ensures RunBatches(bs, BatchRunner(perform)).0.Ok? ==> RunBatches(bs, BatchRunner(perform)).1 == |Flatten(bs)|
    decreases |bs|
  {
    if bs != [] {
      var b, rest := bs[0], Flatten(bs[1..]);
      RunBatchesOkIff(bs[1..], perform);
      BatchOutcomeMeaning(b, perform);
      AllSucceedAssignedConcat(b, rest, perform);
    }
  }

  /** Batched execution succeeds exactly when running all tasks at once would. */
  lemma {:induction false} BatchingPreservesSuccess(s: seq<Task>, n: nat, perform: Perform)
    requires n >= 1
    ensures RunBatches(Chunks(s, n), BatchRunner(perform)).0.Ok? <==> AllSucceed(Assigned(s), perform)
    ensures RunBatches(Chunks(s, n), BatchRunner(perform)).0.Ok? ==> RunBatches(Chunks(s, n), BatchRunner(perform)).1 == |s|
  {
    ChunksShape(s, n);
    ChunksFlatten(s, n);
    RunBatchesOkIff(Chunks(s, n), perform);
  }

  /** The loop's handling of a full batch tasks[start..i]: run it and advance. */
  method RunFullBatch(tasks: array<Task>, start: nat, i: nat, now: nat, perform: Perform,
                      ghost orig: seq<Task>, ghost done: seq<seq<Task>>, ghost cap: nat)
    returns (r: Result<(), CrewError>)
    requires cap >= 1 && |orig| == tasks.Length && start <= i <= tasks.Length && i - start == cap
    requires BatchLoop(orig, done, start, cap, BatchRunner(perform))
    requires tasks[..] == Patched(orig, 0, start)
    modifies tasks
    ensures tasks[..] == Patched(orig, 0, i)
    ensures r.Ok? ==> BatchLoop(orig, done + [orig[start..i]], i, cap, BatchRunner(perform))
    ensures r.Err? ==> RunBatches(Chunks(orig, cap), BatchRunner(perform)) == (r, i)
  {
    PatchedSlices(orig, start, i);
    PatchedJoin(orig, start, i);
    var crew;
    r, crew := ExecuteBatch(tasks, start, i, now, perform);
    BatchLoopStep(orig, done, start, i, cap, BatchRunner(perform));
  }

  /** The final partial batch tasks[start..], which is non-empty. */
  method RunLastBatch(tasks: array<Task>, start: nat, now: nat, perform: Perform,
                      ghost orig: seq<Task>, ghost done: seq<seq<Task>>, ghost cap: nat)
    returns (r: Result<(), CrewError>)
    requires cap >= 1 && |orig| == tasks.Length && start < tasks.Length && tasks.Length - start < cap
    requires BatchLoop(orig, done, start, cap, BatchRunner(perform))
    requires tasks[..] == Patched(orig, 0, start)
    modifies tasks
    ensures tasks[..] == Patched(orig, 0, tasks.Length)
    ensures RunBatches(Chunks(orig, cap), BatchRunner(perform)) == (r, tasks.Length)
  {
    PatchedSlices(orig, start, tasks.Length);
    PatchedJoin(orig, start, tasks.Length);
    assert orig[start..tasks.Length] == orig[start..];
    var crew;
    r, crew := ExecuteBatch(tasks, start, tasks.Length, now, perform);
    BatchLoopEnd(orig, done, start, cap, BatchRunner(perform));
  }

  /** _execute_parallel_optimized: gathers the tasks into batches of
      task_batch_size, running each full batch as soon as it is complete and
      the last partial one at the end; an error raised by a batch stops the
      loop. `reached` is the number of tasks handed to a batch so far. */
  method ExecuteParallelOptimized(tasks: array<Task>, batchSize: int, now: nat, perform: Perform)
    returns (r: Result<(), CrewError>, ghost reached: nat)
    modifies tasks
    ensures (r, reached) == RunBatches(Chunks(old(tasks[..]), Cap(batchSize)), BatchRunner(perform))
    ensures reached <= tasks.Length
    ensures tasks[..] == Patched(old(tasks[..]), 0, reached)
  {
    ghost var orig := tasks[..];
    ghost var cap := Cap(batchSize);
    ghost var done: seq<seq<Task>> := [];
    BatchLoopInit(orig, cap, BatchRunner(perform));
    var start := 0;
    var i := 0;
    while i < tasks.Length
      invariant 0 <= start <= i <= tasks.Length
      invariant i - start < cap
      invariant BatchLoop(orig, done, start, cap, BatchRunner(perform))
      invariant tasks[..] == Patched(orig, 0, start)
    {
      i := i + 1;
      if i - start >= batchSize {
        r := RunFullBatch(tasks, start, i, now, perform, orig, done, cap);
        if r.Err? {
          reached := i;
          return;
        }
        done := done + [orig[start..i]];
        start := i;
      }
    }
    if start < i {
      r := RunLastBatch(tasks, start, now, perform, orig, done, cap);
    } else {
      BatchLoopEnd(orig, done, start, cap, BatchRunner(perform));
      r := Ok(());
    }
    reached := i;
  }
}
