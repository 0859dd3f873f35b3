/** A unit of work of the crew engine (crewai-core's tasks.rs): a record with
    a validating constructor and a status that the execution strategies
    overwrite. Task is a Rust value type (Clone, stored by value in a Vec), so
    `set_status` on a `&mut Task` is modelled as a record update. */
module CrewTasks {
  import opened Base
  import opened CrewErrors

  newtype u32 = x: int | 0 <= x < 0x1_0000_0000

  datatype TaskStatus = Pending | Running | Completed | Failed(reason: string)

  /** The Display text of a status. */
  function DisplayStatus(s: TaskStatus): string
  {
    match s
    case Pending => "Pending"
    case Running => "Running"
    case Completed => "Completed"
    case Failed(err) => "Failed: " + err
  }

  /** Display loses nothing: distinct statuses render to distinct strings. */
  lemma {:induction false} DisplayStatusInjective(a: TaskStatus, b: TaskStatus)
    ensures DisplayStatus(a) == DisplayStatus(b) ==> a == b
  {
    if a != b {
      var sa, sb := DisplayStatus(a), DisplayStatus(b);
      if a.Failed? && b.Failed? {
        assert sa[8..] != sb[8..];
      } else if a.Failed? || b.Failed? {
        assert sa[0] != sb[0];
      } else {
        assert sa[0] != sb[0];
      }
    }
  }

  /** The status every task starts in (the Default instance). */
  function DefaultStatus(): (s: TaskStatus)
    ensures s.Pending?
  {
    Pending
  }

  datatype Task = Task(
    id: u32,
    description: string,
    expected_output: string,
    agent_name: Option<string>,
    status: TaskStatus)

  /** Task::new: the description is checked first, then the expected output;
      a successful construction stores every argument verbatim and starts Pending. */
  function NewTask(id: u32, description: string, expected_output: string, agent_name: Option<string>)
    : (r: Result<Task, CrewError>)
    ensures r.Ok? <==> description != "" && expected_output != ""
    ensures description == "" ==> r == Err(MissingField("Task description cannot be empty"))
    ensures description != "" && expected_output == "" ==>
              r == Err(MissingField("Task expected output cannot be empty"))
    ensures r.Ok? ==> r.value == Task(id, description, expected_output, agent_name, Pending)
  {
    if description == "" then Err(MissingField("Task description cannot be empty"))
    else if expected_output == "" then Err(MissingField("Task expected output cannot be empty"))
    else Ok(Task(id, description, expected_output, agent_name, DefaultStatus()))
  }

  /** set_status: any status may be written (there is no transition guard). */
  function SetStatus(t: Task, s: TaskStatus): (r: Task)
    ensures GetStatus(r) == s
    ensures r.id == t.id && r.description == t.description
    ensures r.expected_output == t.expected_output && r.agent_name == t.agent_name
  {
    t.(status := s)
  }

  function GetStatus(t: Task): TaskStatus
  {
    t.status
  }

  /** Writing twice keeps only the last status; writing the current status changes nothing. */
  lemma {:induction false} SetStatusLastWins(t: Task, s1: TaskStatus, s2: TaskStatus)
    ensures SetStatus(SetStatus(t, s1), s2) == SetStatus(t, s2)
    ensures SetStatus(t, GetStatus(t)) == t
  {
  }

  /** Task::execute is a placeholder that always succeeds; real work is injected
      into the execution strategies as a `Perform` function instead. */
  function Execute(t: Task): (r: Result<(), CrewError>)
    ensures r.Ok?
  {
    Ok(())
  }

  /** The work a strategy performs for one task. It sees the task's data, not
      its status (Task::execute reads only the id and the description). */
  type Perform = TaskRecord -> Result<(), CrewError>

  /** The serialised form of a task: every field but the status, which serde skips. */
  datatype TaskRecord = TaskRecord(
    id: u32, description: string, expected_output: string, agent_name: Option<string>)

  function Serialize(t: Task): TaskRecord
  {
    TaskRecord(t.id, t.description, t.expected_output, t.agent_name)
  }

  /** Deserialisation fills the skipped status with its default. */
  function Deserialize(r: TaskRecord): (t: Task)
    ensures t.status == Pending
  {
    Task(r.id, r.description, r.expected_output, r.agent_name, DefaultStatus())
  }

  /** A serialisation round trip keeps every field and resets the status to Pending. */
  lemma {:induction false} SerdeRoundTrip(t: Task)
    ensures Deserialize(Serialize(t)) == SetStatus(t, Pending)
    ensures Serialize(Deserialize(Serialize(t))) == Serialize(t)
  {
  }
}
