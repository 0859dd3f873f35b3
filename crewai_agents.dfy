/** A named role participant of a crew (crewai-core's agents.rs). */
module CrewAgents {
  import opened Base
  import opened CrewErrors

  datatype Agent = Agent(name: string, role: string, expertise: Option<string>)

  /** Agent::new: the name is checked first, then the role; the expertise is optional. */
  function NewAgent(name: string, role: string, expertise: Option<string>): (r: Result<Agent, CrewError>)
    ensures r.Ok? <==> name != "" && role != ""
    ensures name == "" ==> r == Err(MissingField("Agent name cannot be empty"))
    ensures name != "" && role == "" ==> r == Err(MissingField("Agent role cannot be empty"))
    ensures r.Ok? ==> r.value.name == name && r.value.role == role && r.value.expertise == expertise
  {
    if name == "" then Err(MissingField("Agent name cannot be empty"))
    else if role == "" then Err(MissingField("Agent role cannot be empty"))
    else Ok(Agent(name, role, expertise))
  }

  function RolePrefix(a: Agent): string
  {
    "Agent '" + a.name + "' with role '" + a.role + "'"
  }

  /** describe_role names the agent and its role, and carries an expertise
      clause exactly when the agent has an expertise. */
  function DescribeRole(a: Agent): (r: string)
    ensures StartsWith(r, RolePrefix(a))
    ensures |r| > |RolePrefix(a)| <==> a.expertise.Some?
    ensures a.expertise.Some? ==> EndsWith(r, " and expertise in '" + a.expertise.value + "'")
  {
    match a.expertise
    case Some(e) => RolePrefix(a) + " and expertise in '" + e + "'"
    case None => RolePrefix(a)
  }

  /** Two agents with the same name and role are described alike exactly when
      their expertise agrees. */
  lemma {:induction false} DescribeRoleDeterminesExpertise(a: Agent, b: Agent)
    requires a.name == b.name && a.role == b.role
    ensures DescribeRole(a) == DescribeRole(b) <==> a.expertise == b.expertise
  {
    if DescribeRole(a) == DescribeRole(b) && a.expertise.Some? && b.expertise.Some? {
      var p := |RolePrefix(a)| + 19;
      var ra, rb := DescribeRole(a), DescribeRole(b);
      assert ra[p..|ra| - 1] == a.expertise.value;
      assert rb[p..|rb| - 1] == b.expertise.value;
    }
  }
}
