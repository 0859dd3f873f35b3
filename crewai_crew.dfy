/** The aggregate root of the crew engine (crewai-core's crew.rs): a named
    crew owning ordered agent and task lists and a process kind, with a
    structural and referential validation that every execution entry point
    runs first, and a dispatch on the process kind. */
module CrewModel {
  import opened Base
  import opened CrewErrors
  import opened CrewTasks
  import opened CrewAgents
  import opened CrewExecution

  predicate IsProcessKind(p: string) {
    p == "sequential" || p == "parallel" || p == "async"
  }

  /** The check Crew::new makes before building a crew: the name first, then
      the process kind. */
  function NewCrewCheck(name: string, process: string): (r: Option<CrewError>)
    ensures r.None? <==> name != "" && IsProcessKind(process)
    ensures name == "" ==> r == Some(MissingField("Crew name cannot be empty"))
    ensures name != "" && !IsProcessKind(process) ==> r.Some? && r.value.InvalidConfig?
  {
    if name == "" then Some(MissingField("Crew name cannot be empty"))
    else if !IsProcessKind(process) then
      Some(InvalidConfig("Invalid process type: " + process
                         + ". Must be 'sequential', 'parallel', or 'async'"))
    else None
  }

  /** Position i holds the first agent with the given name. */
  predicate FirstNamed(agents: seq<Agent>, name: string, i: int) {
    0 <= i < |agents| && agents[i].name == name && forall j :: 0 <= j < i ==> agents[j].name != name
  }

  /** The first agent with the given name. */
  function FindAgent(agents: seq<Agent>, name: string): (r: Option<Agent>)
    ensures r.Some? ==> exists i :: FirstNamed(agents, name, i) && agents[i] == r.value
    ensures r.None? <==> forall i :: 0 <= i < |agents| ==> agents[i].name != name
  {
    if agents == [] then None
    else if agents[0].name == name then Some(agents[0])
    else
      var r := FindAgent(agents[1..], name);
      assert r.Some? ==> exists i :: FirstNamed(agents, name, i) && agents[i] == r.value by {
        if r.Some? {
          var i :| FirstNamed(agents[1..], name, i) && agents[1..][i] == r.value;
          assert FirstNamed(agents, name, i + 1);
        }
      }
      r
  }

  predicate HasAgentNamed(agents: seq<Agent>, name: string) {
    exists a :: a in agents && a.name == name
  }

  /** A task's agent reference is dangling when it is set and names no agent. */
  predicate Dangling(agents: seq<Agent>, t: Task) {
    t.agent_name.Some? && !HasAgentNamed(agents, t.agent_name.value)
  }

  /** The index of the first task with a dangling agent reference. */
  function FirstDangling(agents: seq<Agent>, tasks: seq<Task>): (r: Option<nat>)
    ensures r.Some? ==> r.value < |tasks| && Dangling(agents, tasks[r.value])
                        && forall j :: 0 <= j < r.value ==> !Dangling(agents, tasks[j])
    ensures r.None? <==> forall j :: 0 <= j < |tasks| ==> !Dangling(agents, tasks[j])
  {
    if tasks == [] then None
    else if Dangling(agents, tasks[0]) then Some(0)
    else
      var r := FirstDangling(agents, tasks[1..]);
      if r.Some? then Some(r.value + 1) else None
  }

  /** The invariants every execution needs: at least one agent, at least one
      task, and every set agent name naming an agent of the crew. */
  predicate WellFormed(agents: seq<Agent>, tasks: seq<Task>) {
    && |agents| >= 1
    && |tasks| >= 1
    && forall t :: t in tasks && t.agent_name.Some? ==> HasAgentNamed(agents, t.agent_name.value)
  }

  /** Crew::validate on the crew's lists: the first violation in the order
      no agents, no tasks, first dangling reference in task order. */
  function ValidateLists(agents: seq<Agent>, tasks: seq<Task>): (r: Result<(), CrewError>)
    ensures r.Ok? <==> WellFormed(agents, tasks)
    ensures agents == [] ==> r == Err(InvalidConfig("Crew must have at least one agent"))
    ensures agents != [] && tasks == [] ==> r == Err(InvalidConfig("Crew must have at least one task"))
    ensures agents != [] && tasks != [] && r.Err? ==>
              var k := FirstDangling(agents, tasks);
              k.Some? && r == Err(InvalidConfig("Task references agent '" + tasks[k.value].agent_name.value
                                                + "' which doesn't exist in the crew"))
  {
    if agents == [] then Err(InvalidConfig("Crew must have at least one agent"))
    else if tasks == [] then Err(InvalidConfig("Crew must have at least one task"))
    else
      match FirstDangling(agents, tasks)
      case None =>
        assert forall t :: t in tasks && t.agent_name.Some? ==> HasAgentNamed(agents, t.agent_name.value) by {
          forall t | t in tasks && t.agent_name.Some? ensures HasAgentNamed(agents, t.agent_name.value) {
            var j :| 0 <= j < |tasks| && tasks[j] == t;
            assert !Dangling(agents, tasks[j]);
          }
        }
        Ok(())
      case Some(k) =>
        Err(InvalidConfig("Task references agent '" + tasks[k].agent_name.value
                          + "' which doesn't exist in the crew"))
  }

  /** Adding agents and tasks to an empty crew and validating succeeds exactly
      when there is at least one of each and every set agent name is the name
      of one of the agents added. */
  lemma {:induction false} BuildThenValidate(agents: seq<Agent>, tasks: seq<Task>)
    ensures ValidateLists([] + agents, [] + tasks).Ok? <==>
              |agents| >= 1 && |tasks| >= 1
              && forall i :: 0 <= i < |tasks| && tasks[i].agent_name.Some? ==>
                   exists j :: 0 <= j < |agents| && agents[j].name == tasks[i].agent_name.value
  {
    assert [] + agents == agents && [] + tasks == tasks;
    if WellFormed(agents, tasks) {
      forall i | 0 <= i < |tasks| && tasks[i].agent_name.Some?
        ensures exists j :: 0 <= j < |agents| && agents[j].name == tasks[i].agent_name.value
      {
        assert tasks[i] in tasks;
        var a :| a in agents && a.name == tasks[i].agent_name.value;
        var j :| 0 <= j < |agents| && agents[j] == a;
      }
    }
  }

  class Crew {
    var name: string
    var agents: seq<Agent>
    var tasks: seq<Task>
    var process: string

    /** The crew as Crew::new builds it once the check has passed. */
    constructor (name: string, process: string)
      requires NewCrewCheck(name, process).None?
      ensures this.name == name && this.process == process
      ensures agents == [] && tasks == []
    {
      this.name := name;
      this.process := process;
      agents := [];
      tasks := [];
    }

    /** Crew::new: an error from the check, or a fresh crew with no agents and no tasks. */
    static method New(name: string, process: string) returns (r: Result<Crew, CrewError>)
      ensures r.Err? <==> NewCrewCheck(name, process).Some?
      ensures r.Err? ==> r.error == NewCrewCheck(name, process).value
      ensures r.Ok? ==> fresh(r.value) && r.value.name == name && r.value.process == process
                        && r.value.agents == [] && r.value.tasks == []
    {
      var check := NewCrewCheck(name, process);
      if check.Some? {
        return Err(check.value);
      }
      var crew := new Crew(name, process);
      return Ok(crew);
    }

    /** add_agent appends at the end and changes nothing else. */
    method AddAgent(agent: Agent)
      modifies this
      ensures agents == old(agents) + [agent]
      ensures name == old(name) && tasks == old(tasks) && process == old(process)
    {
      agents := agents + [agent];
    }

    /** add_task appends at the end and changes nothing else. */
    method AddTask(task: Task)
      modifies this
      ensures tasks == old(tasks) + [task]
      ensures name == old(name) && agents == old(agents) && process == old(process)
    {
      tasks := tasks + [task];
    }

    /** get_agent_by_name: the first agent with that name, if any. */
    function GetAgentByName(name: string): (r: Option<Agent>)
      reads this
      ensures r.Some? ==> exists i :: FirstNamed(agents, name, i) && agents[i] == r.value
      ensures r.None? <==> forall a :: a in agents ==> a.name != name
    {
      FindAgent(agents, name)
    }

    /** validate takes the crew by shared reference: it reads, never writes. */
    function Validate(): (r: Result<(), CrewError>)
      reads this
      ensures r.Ok? <==> WellFormed(agents, tasks)
    {
      ValidateLists(agents, tasks)
    }

    /** execute_sequential: validate, then run the fail-fast strategy on the
        crew's own tasks. A failed validation leaves every task as it was. */
    method ExecuteSequential(perform: Perform) returns (r: Result<(), CrewError>)
      modifies this
      ensures name == old(name) && agents == old(agents) && process == old(process)
      ensures old(Validate()).Err? ==> r == old(Validate()) && tasks == old(tasks)
      ensures old(Validate()).Ok? ==> (tasks, r) == SequentialRun(old(tasks), perform)
    {
      var v := Validate();
      if v.Err? {
        return v;
      }
      var ts := tasks;
      var slice := new Task[|ts|](i requires 0 <= i < |ts| => ts[i]);
      assert slice[..] == ts;
      ghost var writes;
      r, writes := ExecuteTasksSequentially(slice, perform);
      tasks := slice[..];
    }

    /** execute_parallel_rayon: validate, then attempt every task on clones;
        the crew itself is only read. */
    method ExecuteParallelRayon(perform: Perform) returns (r: Result<(), CrewError>)
      ensures Validate().Err? ==> r == Validate()
      ensures Validate().Ok? ==> r == Aggregate(RayonHeader, FailureMessages(tasks, perform))
      ensures Validate().Ok? ==> (r.Ok? <==> AllSucceed(tasks, perform))
    {
      var v := Validate();
      if v.Err? {
        return v;
      }
      var clones;
      r, clones := ExecuteTasksRayon(tasks, perform);
    }

    /** execute_concurrent_tokio: validate, then run one activity per task on a
        clone of the task list; the crew itself is only read. */
    method ExecuteConcurrentTokio(perform: Perform, panics: Task -> Option<string>)
      returns (r: Result<(), CrewError>)
      ensures Validate().Err? ==> r == Validate()
      ensures Validate().Ok? ==> r == Aggregate(TokioHeader, TokioErrors(tasks, perform, panics))
      ensures Validate().Ok? ==> (r.Ok? <==> AllFinishOk(tasks, perform, panics))
    {
      var v := Validate();
      if v.Err? {
        return v;
      }
      var statuses;
      r, statuses := ExecuteTasksTokio(tasks, perform, panics);
    }

    /** execute: "sequential" and "parallel" run their strategies; "async"
        is refused without running anything, as is an unknown process kind. */
    method Execute(perform: Perform) returns (r: Result<(), CrewError>)
      modifies this
      ensures name == old(name) && agents == old(agents) && process == old(process)
      ensures process == "sequential" ==>
                if old(Validate()).Err? then r == old(Validate()) && tasks == old(tasks)
                else (tasks, r) == SequentialRun(old(tasks), perform)
      ensures process == "parallel" ==>
                tasks == old(tasks)
                && r == if Validate().Err? then Validate() else Aggregate(RayonHeader, FailureMessages(tasks, perform))
      ensures process == "async" ==>
                tasks == old(tasks)
                && r == Err(InvalidConfig("Cannot execute async process synchronously. Use execute_async() instead."))
      ensures !IsProcessKind(process) ==>
                tasks == old(tasks) && r == Err(InvalidConfig("Unknown process type: " + process))
    {
      if process == "sequential" {
        r := ExecuteSequential(perform);
      } else if process == "parallel" {
        r := ExecuteParallelRayon(perform);
      } else if process == "async" {
        r := Err(InvalidConfig("Cannot execute async process synchronously. Use execute_async() instead."));
      } else {
        r := Err(InvalidConfig("Unknown process type: " + process));
      }
    }

    /** execute_async: all three kinds are accepted; only "async" runs the
        concurrent strategy. */
    method ExecuteAsync(perform: Perform, panics: Task -> Option<string>) returns (r: Result<(), CrewError>)
      modifies this
      ensures name == old(name) && agents == old(agents) && process == old(process)
      ensures process == "sequential" ==>
                if old(Validate()).Err? then r == old(Validate()) && tasks == old(tasks)
                else (tasks, r) == SequentialRun(old(tasks), perform)
      ensures process == "parallel" ==>
                tasks == old(tasks)
                && r == if Validate().Err? then Validate() else Aggregate(RayonHeader, FailureMessages(tasks, perform))
      ensures process == "async" ==>
                tasks == old(tasks)
                && r == if Validate().Err? then Validate() else Aggregate(TokioHeader, TokioErrors(tasks, perform, panics))
      ensures !IsProcessKind(process) ==>
                tasks == old(tasks) && r == Err(InvalidConfig("Unknown process type: " + process))
    {
      if process == "sequential" {
        r := ExecuteSequential(perform);
      } else if process == "parallel" {
        r := ExecuteParallelRayon(perform);
      } else if process == "async" {
        r := ExecuteConcurrentTokio(perform, panics);
      } else {
        r := Err(InvalidConfig("Unknown process type: " + process));
      }
    }
  }
}
