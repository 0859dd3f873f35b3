/** The team workflow (AutoGroq/src/workflows/optimized_workflow.py): the fixed
    table of team roles chosen by team size, and the numbering that turns the
    i-th role into agent "Agent-{i+1}" and task i+1 when the workflow builds its
    components. */
module OptimizedWorkflow {
  import opened Base
  import opened CrewTasks
  import opened CrewAgents
  import OptimizedIntegration
  import CrewModel

  /** One row of the role table. */
  datatype Role = Role(title: string, expertise: string, taskPrefix: string,
                       expectedOutput: string, priority: int, dependencies: seq<int>)

  const Generalist := Role("Generalist", "Problem solving across multiple domains",
    "Analyze and complete the following task:", "Comprehensive solution", 5, [])

  const Researcher := Role("Researcher", "Gathering and analyzing information",
    "Research and analyze information for:", "Research findings", 10, [])

  const Synthesizer := Role("Synthesizer", "Organizing information and creating final outputs",
    "Synthesize findings to complete:", "Final synthesis", 5, [1])

  const SmallTeamAnalyst := Role("Analyst", "Identifying patterns and extracting insights",
    "Analyze the research findings for:", "Analysis and insights", 5, [1])

  const SmallTeamCreator := Role("Creator", "Creating final outputs and recommendations",
    "Create the final output for:", "Final deliverable", 1, [2])

  /** The four roles every team of another size starts from. */
  const LargeTeamBase := [
    Role("Research Lead", "Planning and coordinating research",
         "Plan and coordinate research for:", "Research plan", 10, []),
    Role("Data Collector", "Gathering and organizing information",
         "Collect and organize information for:", "Collected data", 8, [1]),
    Role("Analyst", "Identifying patterns and extracting insights",
         "Analyze the collected data for:", "Analysis and insights", 6, [2]),
    Role("Creator", "Creating final outputs and recommendations",
         "Create the final output for:", "Final deliverable", 4, [3])
  ]

  /** The specialised roles added, in this order, to teams of more than four. */
  const AdditionalRoles := [
    Role("Domain Expert", "Providing specialized domain knowledge",
         "Provide domain expertise for:", "Domain-specific insights", 7, [1]),
    Role("Quality Assurance", "Reviewing and validating outputs",
         "Review and validate the outputs for:", "Validation report", 2, [4]),
    Role("Implementer", "Providing practical implementation steps",
         "Create implementation steps for:", "Implementation plan", 3, [3, 5])
  ]

  /** The roles for a team size: the fixed small teams for 1, 2 and 3; otherwise
      the four base roles, as many additional roles as the size asks for, and
      the Python prefix slice roles[:team_size], which for a negative size
      counts from the end. */
  function TeamRoles(teamSize: int): (r: seq<Role>)
    ensures teamSize == 1 ==> r == [Generalist]
    ensures teamSize == 2 ==> r == [Researcher, Synthesizer]
    ensures teamSize == 3 ==> r == [Researcher, SmallTeamAnalyst, SmallTeamCreator]
  {
    if teamSize == 1 then [Generalist]
    else if teamSize == 2 then [Researcher, Synthesizer]
    else if teamSize == 3 then [Researcher, SmallTeamAnalyst, SmallTeamCreator]
    else PyTake(LargeTeamBase + AdditionalRoles[..Max(0, Min(|AdditionalRoles|, teamSize - |LargeTeamBase|))], teamSize)
  }

  /** _get_team_roles: the else branch appends the additional roles one by one
      and then cuts the list to the team size. */
  method GetTeamRoles(teamSize: int) returns (roles: seq<Role>)
    ensures roles == TeamRoles(teamSize)
  {
    if teamSize == 1 {
      return [Generalist];
    } else if teamSize == 2 {
      return [Researcher, Synthesizer];
    } else if teamSize == 3 {
      return [Researcher, SmallTeamAnalyst, SmallTeamCreator];
    }
    roles := LargeTeamBase;
    var extra := Min(|AdditionalRoles|, teamSize - |roles|);
    var i := 0;
    while i < extra
      invariant 0 <= i <= Max(0, extra)
      invariant roles == LargeTeamBase + AdditionalRoles[..i]
    {
      roles := roles + [AdditionalRoles[i]];
      i := i + 1;
    }
    roles := PyTake(roles, teamSize);
  }

  /** The team size decides the number of roles: min(team_size, 7) for a
      non-negative size, and for a negative size the Python slice of the four
      base roles. */
  lemma {:induction false} TeamRolesLength(teamSize: int)
    ensures teamSize >= 0 ==> |TeamRoles(teamSize)| == Min(teamSize, 7)
    ensures teamSize < 0 ==> |TeamRoles(teamSize)| == Max(0, 4 + teamSize)
  {
    if teamSize > 3 {
      assert |AdditionalRoles[..Max(0, Min(3, teamSize - 4))]| == Min(3, teamSize - 4);
    }
  }

  /** Teams of four or more start with the four base roles and continue with
      the additional roles in listed order. */
  lemma {:induction false} TeamRolesLarge(teamSize: int)
    requires teamSize >= 4
    ensures TeamRoles(teamSize)[..4] == LargeTeamBase
    ensures TeamRoles(teamSize)[4..] == AdditionalRoles[..Min(3, teamSize - 4)]
  {
    var all := LargeTeamBase + AdditionalRoles[..Min(3, teamSize - 4)];
    assert TeamRoles(teamSize) == all;
  }

  /** Every dependency of the role at 1-based position p names a role at an
      earlier position, so the task numbering of build_async can always be
      ordered. */
  predicate DependenciesEarlier(roles: seq<Role>)
  {
    forall p, d :: 0 <= p < |roles| && d in roles[p].dependencies ==> 1 <= d < p + 1
  }

  lemma {:induction false} TeamRolesDependenciesEarlier(teamSize: int)
    ensures DependenciesEarlier(TeamRoles(teamSize))
  {
    var all := LargeTeamBase + AdditionalRoles;
    assert DependenciesEarlier(all) by {
      forall p, d | 0 <= p < |all| && d in all[p].dependencies
        ensures 1 <= d < p + 1
      {
        assert p == 0 || p == 1 || p == 2 || p == 3 || p == 4 || p == 5 || p == 6;
      }
    }
    if teamSize > 3 || teamSize <= 0 {
      var r := TeamRoles(teamSize);
      assert r <= all;
      forall p, d | 0 <= p < |r| && d in r[p].dependencies
        ensures 1 <= d < p + 1
      {
        assert r[p] == all[p];
      }
    }
  }

  /** Every role has a non-empty title and expected output, so the agents and
      tasks built from them are accepted by the engine's constructors. */
  predicate RolesConstructible(roles: seq<Role>)
  {
    forall r :: r in roles ==> r.title != "" && r.expectedOutput != ""
  }

  lemma {:induction false} PrefixConstructible(r: seq<Role>, all: seq<Role>)
    requires RolesConstructible(all) && r <= all
    ensures RolesConstructible(r)
  {
    forall x | x in r ensures x in all {
      var k :| 0 <= k < |r| && r[k] == x;
      assert all[k] == x;
    }
  }

  lemma {:induction false} TeamRolesConstructible(teamSize: int)
    ensures RolesConstructible(TeamRoles(teamSize))
  {
    if teamSize > 3 || teamSize <= 0 {
      var all := LargeTeamBase + AdditionalRoles;
      assert RolesConstructible(all) by {
        forall x | x in all ensures x.title != "" && x.expectedOutput != "" {
          var k :| 0 <= k < |all| && all[k] == x;
          assert k == 0 || k == 1 || k == 2 || k == 3 || k == 4 || k == 5 || k == 6;
        }
      }
      PrefixConstructible(TeamRoles(teamSize), all);
    }
  }

  /** The name of the agent serving the role at 1-based position n. */
  function AgentName(n: nat): (s: string)
    ensures |s| > 6 && s[..6] == "Agent-"
  {
    "Agent-" + NatToString(n)
  }

  /** The agent loop of build_async. */
  method BuildAgents(roles: seq<Role>) returns (agents: seq<Agent>)
    requires RolesConstructible(roles)
    ensures |agents| == |roles|
    ensures forall i :: 0 <= i < |roles| ==>
              agents[i] == Agent(AgentName(i + 1), roles[i].title, Some(roles[i].expertise))
  {
    agents := [];
    var i := 0;
    while i < |roles|
      invariant 0 <= i <= |roles|
      invariant |agents| == i
      invariant forall j :: 0 <= j < i ==>
                  agents[j] == Agent(AgentName(j + 1), roles[j].title, Some(roles[j].expertise))
    {
      assert roles[i] in roles;
      var a := NewAgent(AgentName(i + 1), roles[i].title, Some(roles[i].expertise));
      agents := agents + [a.value];
      i := i + 1;
    }
  }

  /** The task loop of build_async, recording each role's priority and
      dependencies in the metadata. */
  method BuildTasks(task: string, roles: seq<Role>, md: OptimizedIntegration.Metadata)
    returns (tasks: seq<Task>, mdOut: OptimizedIntegration.Metadata)
    requires RolesConstructible(roles) && |roles| < 0x1_0000_0000
    ensures |tasks| == |roles|
    ensures forall i :: 0 <= i < |roles| ==>
              tasks[i] == Task((i + 1) as u32, roles[i].taskPrefix + " " + task,
                               roles[i].expectedOutput, Some(AgentName(i + 1)), Pending)
    ensures forall k :: 1 <= k <= |roles| ==>
              k in mdOut && mdOut[k] == OptimizedIntegration.Meta(roles[k - 1].priority, roles[k - 1].dependencies)
    ensures forall k :: k in md && !(1 <= k <= |roles|) ==> k in mdOut && mdOut[k] == md[k]
  {
    tasks := [];
    mdOut := md;
    var i := 0;
    while i < |roles|
      invariant 0 <= i <= |roles|
      invariant |tasks| == i
      invariant forall j :: 0 <= j < i ==>
                  tasks[j] == Task((j + 1) as u32, roles[j].taskPrefix + " " + task,
                                   roles[j].expectedOutput, Some(AgentName(j + 1)), Pending)
      invariant forall k :: 1 <= k <= i ==>
                  k in mdOut && mdOut[k] == OptimizedIntegration.Meta(roles[k - 1].priority, roles[k - 1].dependencies)
      invariant forall k :: k in md && !(1 <= k <= i) ==> k in mdOut && mdOut[k] == md[k]
    {
      assert roles[i] in roles;
      var created := OptimizedIntegration.CreateTask(mdOut, (i + 1) as u32, roles[i].taskPrefix + " " + task,
        roles[i].expectedOutput, Some(AgentName(i + 1)), roles[i].priority, Some(roles[i].dependencies));
      assert created.0 == Ok(Task((i + 1) as u32, roles[i].taskPrefix + " " + task,
                                  roles[i].expectedOutput, Some(AgentName(i + 1)), Pending));
      assert ((i + 1) as u32) as int == i + 1;
      assert created.1 == mdOut[i + 1 := OptimizedIntegration.Meta(roles[i].priority, roles[i].dependencies)];
      tasks := tasks + [created.0.value];
      mdOut := created.1;
      i := i + 1;
    }
  }

  /** build_async: the agent loop and the task loop over the roles of the team.
      The i-th role (counting from zero) becomes agent "Agent-{i+1}" with the
      role's title and expertise, and task i+1 with description
      "{task_prefix} {task}", assigned to that agent; its priority and
      dependencies go into the metadata under id i+1. */
  method BuildAsync(task: string, teamSize: int, md: OptimizedIntegration.Metadata)
    returns (roles: seq<Role>, agents: seq<Agent>, tasks: seq<Task>, mdOut: OptimizedIntegration.Metadata)
    ensures roles == TeamRoles(teamSize)
    ensures |agents| == |roles| && |tasks| == |roles|
    ensures forall i :: 0 <= i < |roles| ==>
              agents[i] == Agent(AgentName(i + 1), roles[i].title, Some(roles[i].expertise))
    ensures forall i :: 0 <= i < |roles| ==>
              tasks[i] == Task((i + 1) as u32, roles[i].taskPrefix + " " + task,
                               roles[i].expectedOutput, Some(AgentName(i + 1)), Pending)
    ensures forall k :: 1 <= k <= |roles| ==>
              k in mdOut && mdOut[k] == OptimizedIntegration.Meta(roles[k - 1].priority, roles[k - 1].dependencies)
    ensures forall k :: k in md && !(1 <= k <= |roles|) ==> k in mdOut && mdOut[k] == md[k]
  {
    roles := GetTeamRoles(teamSize);
    TeamRolesLength(teamSize);
    TeamRolesConstructible(teamSize);
    assert |roles| <= 7;
    agents := BuildAgents(roles);
    tasks, mdOut := BuildTasks(task, roles, md);
  }

  /** The agents and tasks build_async makes for a non-empty team form a crew
      that passes Crew::validate: each task names the agent built beside it. */
  lemma {:induction false} BuiltListsWellFormed(task: string, roles: seq<Role>, agents: seq<Agent>, tasks: seq<Task>)
    requires |roles| >= 1 && |roles| < 0x1_0000_0000
    requires |agents| == |roles| && |tasks| == |roles|
    requires forall i :: 0 <= i < |roles| ==>
               agents[i] == Agent(AgentName(i + 1), roles[i].title, Some(roles[i].expertise))
    requires forall i :: 0 <= i < |roles| ==>
               tasks[i] == Task((i + 1) as u32, roles[i].taskPrefix + " " + task,
                                roles[i].expectedOutput, Some(AgentName(i + 1)), Pending)
    ensures CrewModel.WellFormed(agents, tasks)
  {
    forall t | t in tasks && t.agent_name.Some?
      ensures CrewModel.HasAgentNamed(agents, t.agent_name.value)
    {
      var i :| 0 <= i < |tasks| && tasks[i] == t;
      assert agents[i] in agents && agents[i].name == t.agent_name.value;
    }
  }

  /** Every dependency recorded for task i+1 is the id of a task built before
      it, for every team size. */
  lemma {:induction false} BuiltDependenciesEarlier(teamSize: int, tasks: seq<Task>, md: OptimizedIntegration.Metadata)
    requires |tasks| == |TeamRoles(teamSize)|
    requires forall i :: 0 <= i < |tasks| ==> tasks[i].id as int == i + 1
    requires forall k :: 1 <= k <= |tasks| ==>
               k in md && md[k].dependencies == TeamRoles(teamSize)[k - 1].dependencies
    ensures forall k, d :: 1 <= k <= |tasks| && d in md[k].dependencies ==>
              exists j :: 0 <= j < k - 1 && tasks[j].id as int == d
  {
    var roles := TeamRoles(teamSize);
    TeamRolesDependenciesEarlier(teamSize);
    forall k, d | 1 <= k <= |tasks| && d in md[k].dependencies
      ensures exists j :: 0 <= j < k - 1 && tasks[j].id as int == d
    {
      assert d in roles[k - 1].dependencies;
      assert tasks[d - 1].id as int == d;
    }
  }
}
