/** The HTTP client side of the crew service
    (crewai-service/crewai_service_integration.py): agent and task
    configuration dictionaries, the guard and the batching decision of
    execute_crew, and _execute_in_batches, which cuts the task list into
    consecutive batches, sends each batch as a crew of its own and combines
    the replies. The service itself is the parameter `send`: it either raises
    a request exception (Err with its text) or answers with a status code, a
    response text and the decoded JSON reply. */
module CrewServiceIntegration {
  import opened Base
  import OptimizedBatches

  /** An LLM configuration dictionary; only its emptiness matters here. */
  type Config = map<string, string>

  /** A context entry of a task configuration. */
  type ContextEntry = map<string, string>

  datatype AgentConfig = AgentConfig(name: string, role: string, goal: Option<string>,
                                     expertise: Option<string>, backstory: Option<string>,
                                     llmConfig: Option<Config>, tools: seq<string>)

  datatype TaskConfig = TaskConfig(id: int, description: string, expectedOutput: string,
                                   agentName: Option<string>, priority: int,
                                   dependencies: seq<int>, context: seq<ContextEntry>)

  /** The integration's settings, fixed when it is constructed. */
  datatype Service = Service(executionMode: string, enablePerformanceMonitoring: bool,
                             taskBatchSize: int, serviceUrl: string, llmConfig: Config)

  /** What execute_crew returns: an error dictionary, the service's own reply
      (a reply without a "success" entry counts as unsuccessful), or the
      combination of the replies to the batches. */
  datatype Outcome =
    | Failure(error: string)
    | Reply(success: bool)
    | Combined(success: bool, batchResults: seq<Outcome>, batchCount: nat)

  /** The body posted to /execute_crew. */
  datatype Payload = Payload(name: string, agents: seq<AgentConfig>, tasks: seq<TaskConfig>,
                             executionMode: string, llmConfig: Config)

  datatype HttpResponse = HttpResponse(status: int, text: string, json: Outcome)

  type Send = Payload -> Result<HttpResponse, string>

  const DefaultServiceUrl := "http://localhost:8000"

  /** Python truthiness of an optional string: None and "" are false. */
  predicate Truthy(s: Option<string>) { s.Some? && s.value != "" }

  /** The constructor: the given URL when it is truthy, else the environment
      variable CREWAI_SERVICE_URL, else the local default; an LLM
      configuration that is None or empty becomes {}. */
  function NewService(executionMode: string, enablePerformanceMonitoring: bool, taskBatchSize: int,
                      serviceUrl: Option<string>, llmConfig: Option<Config>,
                      environmentUrl: Option<string>): (s: Service)
    ensures s.executionMode == executionMode && s.taskBatchSize == taskBatchSize
    ensures Truthy(serviceUrl) ==> s.serviceUrl == serviceUrl.value
    ensures !Truthy(serviceUrl) && environmentUrl.Some? ==> s.serviceUrl == environmentUrl.value
    ensures !Truthy(serviceUrl) && environmentUrl.None? ==> s.serviceUrl == DefaultServiceUrl
    ensures llmConfig.None? ==> s.llmConfig == map[]
    ensures llmConfig.Some? ==> s.llmConfig == llmConfig.value
  {
    var url := if Truthy(serviceUrl) then serviceUrl.value
               else if environmentUrl.Some? then environmentUrl.value
               else DefaultServiceUrl;
    Service(executionMode, enablePerformanceMonitoring, taskBatchSize, url,
            if llmConfig.Some? && llmConfig.value != map[] then llmConfig.value else map[])
  }

  /** create_agent: every argument is stored as given, and tools None or []
      becomes []. */
  function CreateAgent(name: string, role: string, goal: Option<string>, expertise: Option<string>,
                       backstory: Option<string>, llmConfig: Option<Config>,
                       tools: Option<seq<string>>): (a: AgentConfig)
    ensures a.name == name && a.role == role && a.goal == goal && a.expertise == expertise
    ensures a.backstory == backstory && a.llmConfig == llmConfig
    ensures tools.None? ==> a.tools == []
    ensures tools.Some? ==> a.tools == tools.value
  {
    AgentConfig(name, role, goal, expertise, backstory, llmConfig,
                if tools.Some? && tools.value != [] then tools.value else [])
  }

  /** The task builder's default priority. */
  const DefaultPriority := 5

  /** create_task: every argument is stored as given, and dependencies and
      context that are None or empty become []. Leaving out the priority is
      calling with DefaultPriority. */
  function CreateTask(id: int, description: string, expectedOutput: string, agentName: Option<string>,
                      priority: int, dependencies: Option<seq<int>>,
                      context: Option<seq<ContextEntry>>): (t: TaskConfig)
    ensures t.id == id && t.description == description && t.expectedOutput == expectedOutput
    ensures t.agentName == agentName && t.priority == priority
    ensures dependencies.None? ==> t.dependencies == []
    ensures dependencies.Some? ==> t.dependencies == dependencies.value
    ensures context.None? ==> t.context == []
    ensures context.Some? ==> t.context == context.value
  {
    TaskConfig(id, description, expectedOutput, agentName, priority,
               if dependencies.Some? && dependencies.value != [] then dependencies.value else [],
               if context.Some? && context.value != [] then context.value else [])
  }

  /** `llm_config or self.llm_config`: an empty dictionary falls back. */
  function ChooseConfig(given: Config, fallback: Config): (c: Config)
    ensures given != map[] ==> c == given
    ensures given == map[] ==> c == fallback
  {
    if given != map[] then given else fallback
  }

  /** Choosing again with the same fallback changes nothing, so a batch
      re-resolving the configuration it was handed keeps it. */
  lemma {:induction false} ChooseConfigIdempotent(given: Config, fallback: Config)
    ensures ChooseConfig(ChooseConfig(given, fallback), fallback) == ChooseConfig(given, fallback)
  {
  }

  /** Whether an outcome counts as a success in the combination:
      result.get("success", False). */
  function Succeeded(o: Outcome): bool
  {
    match o
    case Failure(_) => false
    case Reply(s) => s
    case Combined(s, _, _) => s
  }

  /** One request to /execute_crew: the decoded reply on status 200, an
      error naming the status and the text on any other status, and an error
      naming the exception when the request fails. */
  function Post(send: Send, p: Payload): (o: Outcome)
    ensures send(p).Err? ==> o == Failure("Error connecting to CrewAI service: " + send(p).error)
    ensures send(p).Ok? && send(p).value.status == 200 ==> o == send(p).value.json
    ensures send(p).Ok? && send(p).value.status != 200 ==>
              o == Failure("Error executing crew: " + IntToString(send(p).value.status) + " - " + send(p).value.text)
  {
    var r := send(p);
    if r.Err? then Failure("Error connecting to CrewAI service: " + r.error)
    else if r.value.status == 200 then r.value.json
    else Failure("Error executing crew: " + IntToString(r.value.status) + " - " + r.value.text)
  }

  const NothingToRun := "No agents or tasks provided"

  /** execute_crew on a request that is not batched: the guard against an
      empty crew, then one request. */
  function SendCrew(svc: Service, send: Send, crewName: string, agents: seq<AgentConfig>,
                    tasks: seq<TaskConfig>, config: Config): (o: Outcome)
    ensures agents == [] || tasks == [] ==> o == Failure(NothingToRun)
    ensures agents != [] && tasks != [] ==>
              o == Post(send, Payload(crewName, agents, tasks, svc.executionMode,
                                      ChooseConfig(config, svc.llmConfig)))
  {
    if agents == [] || tasks == [] then Failure(NothingToRun)
    else Post(send, Payload(crewName, agents, tasks, svc.executionMode, ChooseConfig(config, svc.llmConfig)))
  }

  /** The number of tasks a batch holds. A batch size below 1 is treated as 1
      (see the corrected guard below). */
  function BatchLimit(svc: Service): nat
  {
    OptimizedBatches.Cap(svc.taskBatchSize)
  }

  /** The batching decision of execute_crew, as corrected: batch only in the
      "parallel" mode and only when the tasks exceed what one batch holds. */
  predicate ShouldBatch(svc: Service, tasks: seq<TaskConfig>)
  {
    |tasks| > BatchLimit(svc) && svc.executionMode == "parallel"
  }

  /** The batching decision as written: `len(tasks) > self.task_batch_size`. */
  predicate ShouldBatchAsWritten(svc: Service, tasks: seq<TaskConfig>)
  {
    |tasks| > svc.taskBatchSize && svc.executionMode == "parallel"
  }

  /** The batches _execute_in_batches makes. */
  function Batches(svc: Service, tasks: seq<TaskConfig>): seq<seq<TaskConfig>>
  {
    OptimizedBatches.Chunks(tasks, BatchLimit(svc))
  }

  /** The crew name of the batch at zero-based position i. */
  function BatchCrewName(crewName: string, i: nat): string
  {
    crewName + "_batch_" + NatToString(i + 1)
  }

  /** A batch never triggers batching again: it holds at most BatchLimit
      tasks. */
  lemma {:induction false} BatchesDoNotRebatch(svc: Service, tasks: seq<TaskConfig>)
    ensures forall i :: 0 <= i < |Batches(svc, tasks)| ==>
              Batches(svc, tasks)[i] != [] && !ShouldBatch(svc, Batches(svc, tasks)[i])
  {
    OptimizedBatches.ChunksShape(tasks, BatchLimit(svc));
  }

  /** The state of the splitting loop: the batches flushed so far followed by
      the split of the rest make up the whole split. */
  ghost predicate SplitSoFar<T>(whole: seq<T>, batches: seq<seq<T>>, start: nat, cap: nat)
    requires cap >= 1
  {
    start <= |whole| && batches + OptimizedBatches.Chunks(whole[start..], cap) == OptimizedBatches.Chunks(whole, cap)
  }

  lemma {:induction false} SplitFlush<T>(whole: seq<T>, batches: seq<seq<T>>, start: nat, i: nat, cap: nat)
    requires cap >= 1 && SplitSoFar(whole, batches, start, cap)
    requires start < i <= |whole| && i - start == cap
    ensures SplitSoFar(whole, batches + [whole[start..i]], i, cap)
  {
    var b := whole[start..i];
    assert whole[start..] == b + whole[i..];
    OptimizedBatches.ChunksHead(b, whole[i..], cap);
    ConcatAssoc(batches, [b], OptimizedBatches.Chunks(whole[i..], cap));
  }

  lemma {:induction false} SplitRest<T>(whole: seq<T>, batches: seq<seq<T>>, start: nat, cap: nat)
    requires cap >= 1 && SplitSoFar(whole, batches, start, cap)
    requires |whole| - start < cap
    ensures start < |whole| ==> batches + [whole[start..]] == OptimizedBatches.Chunks(whole, cap)
    ensures start == |whole| ==> batches == OptimizedBatches.Chunks(whole, cap)
  {
    if start < |whole| {
      OptimizedBatches.ChunksLast(whole[start..], cap);
    } else {
      assert whole[start..] == [];
    }
  }

  /** Cuts the task list in the order given, flushing the current batch as
      soon as it holds the batch size, and appending any remainder. */
  method SplitBatches(svc: Service, tasks: seq<TaskConfig>) returns (batches: seq<seq<TaskConfig>>)
    ensures batches == Batches(svc, tasks)
  {
    var cap := BatchLimit(svc);
    batches := [];
    var current: seq<TaskConfig> := [];
    var start := 0;
    assert tasks[0..] == tasks;
    for i := 0 to |tasks|
      invariant start <= i && |current| < cap
      invariant current == tasks[start..i]
      invariant SplitSoFar(tasks, batches, start, cap)
    {
      current := current + [tasks[i]];
      assert current == tasks[start..i + 1];
      if |current| >= svc.taskBatchSize {
        assert |current| == cap;
        SplitFlush(tasks, batches, start, i + 1, cap);
        batches := batches + [current];
        current := [];
        start := i + 1;
      }
    }
    assert current == tasks[start..];
    SplitRest(tasks, batches, start, cap);
    if current != [] {
      batches := batches + [current];
    }
  }

  /** The replies a list of batches gets, each batch sent as its own crew. */
  function BatchReplies(svc: Service, send: Send, crewName: string, agents: seq<AgentConfig>,
                        batches: seq<seq<TaskConfig>>, config: Config, from: nat): (rs: seq<Outcome>)
    ensures |rs| == |batches|
    ensures forall i :: 0 <= i < |batches| ==>
              rs[i] == SendCrew(svc, send, BatchCrewName(crewName, from + i), agents, batches[i], config)
    decreases |batches|
  {
    if batches == [] then []
    else [SendCrew(svc, send, BatchCrewName(crewName, from), agents, batches[0], config)]
         + BatchReplies(svc, send, crewName, agents, batches[1..], config, from + 1)
  }

  /** all(...) over the batch replies. */
  predicate AllSucceeded(rs: seq<Outcome>)
  {
    forall i :: 0 <= i < |rs| ==> Succeeded(rs[i])
  }

  /** execute_crew. Without agents or tasks no request is made; a parallel
      service with more tasks than one batch holds runs them batch by batch;
      otherwise one request is posted. */
  method ExecuteCrew(svc: Service, send: Send, crewName: string, agents: seq<AgentConfig>,
                     tasks: seq<TaskConfig>, llmConfig: Config) returns (r: Outcome)
    ensures (agents == [] || tasks == [] || !ShouldBatch(svc, tasks)) ==>
              r == SendCrew(svc, send, crewName, agents, tasks, llmConfig)
    ensures agents != [] && tasks != [] && ShouldBatch(svc, tasks) ==>
              var rs := BatchReplies(svc, send, crewName, agents, Batches(svc, tasks),
                                     ChooseConfig(llmConfig, svc.llmConfig), 0);
              r == Combined(AllSucceeded(rs), rs, |Batches(svc, tasks)|)
    decreases if ShouldBatch(svc, tasks) then 2 else 0
  {
    if |agents| == 0 || |tasks| == 0 {
      return Failure(NothingToRun);
    }
    var config := ChooseConfig(llmConfig, svc.llmConfig);
    if ShouldBatch(svc, tasks) {
      r := ExecuteInBatches(svc, send, crewName, agents, tasks, config);
      return;
    }
    r := Post(send, Payload(crewName, agents, tasks, svc.executionMode, config));
    ChooseConfigIdempotent(llmConfig, svc.llmConfig);
  }

  /** _execute_in_batches: split, then one execute_crew call per batch, named
      after its 1-based position; the combination succeeds iff every batch
      did and counts the batches. */
  method ExecuteInBatches(svc: Service, send: Send, crewName: string, agents: seq<AgentConfig>,
                          tasks: seq<TaskConfig>, llmConfig: Config) returns (r: Outcome)
    ensures var rs := BatchReplies(svc, send, crewName, agents, Batches(svc, tasks), llmConfig, 0);
            r == Combined(AllSucceeded(rs), rs, |Batches(svc, tasks)|)
    decreases 1
  {
    var batches := SplitBatches(svc, tasks);
    BatchesDoNotRebatch(svc, tasks);
    ghost var expected := BatchReplies(svc, send, crewName, agents, batches, llmConfig, 0);
    var results: seq<Outcome> := [];
    for i := 0 to |batches|
      invariant results == expected[..i]
    {
      var reply := ExecuteCrew(svc, send, BatchCrewName(crewName, i), agents, batches[i], llmConfig);
      results := results + [reply];
    }
    assert results == expected;
    r := Combined(AllSucceeded(results), results, |batches|);
  }

  /** Batching loses and reorders no task, every batch is non-empty and
      within the batch size, and only the last may be shorter. */
  lemma {:induction false} BatchesPartitionTasks(svc: Service, tasks: seq<TaskConfig>)
    ensures OptimizedBatches.Flatten(Batches(svc, tasks)) == tasks
    ensures forall i :: 0 <= i < |Batches(svc, tasks)| ==>
              1 <= |Batches(svc, tasks)[i]| <= BatchLimit(svc)
    ensures forall i :: 0 <= i < |Batches(svc, tasks)| - 1 ==>
              |Batches(svc, tasks)[i]| == BatchLimit(svc)
  {
    OptimizedBatches.ChunksFlatten(tasks, BatchLimit(svc));
    OptimizedBatches.ChunksShape(tasks, BatchLimit(svc));
  }

  /** For a batch size of at least 1 the corrected decision is the one
      written in the source. */
  lemma {:induction false} ShouldBatchAgrees(svc: Service, tasks: seq<TaskConfig>)
    requires svc.taskBatchSize >= 1
    ensures ShouldBatch(svc, tasks) <==> ShouldBatchAsWritten(svc, tasks)
  {
  }

  /** As written, a batch size below 1 makes execute_crew recurse forever on a
      parallel service: the split yields one-task batches, and the recursive
      call on such a batch satisfies the written guard again, so it batches
      the same single task again, with the same arguments. */
  lemma {:induction false} AsWrittenRebatchesForever(svc: Service, t: TaskConfig)
    requires svc.taskBatchSize < 1 && svc.executionMode == "parallel"
    ensures ShouldBatchAsWritten(svc, [t])
    ensures Batches(svc, [t]) == [[t]]
  {
  }
}
