/** The error kinds of the crew engine (crewai-core's CrewAIError) and the
    text each one renders to. Every fallible operation of the engine returns
    one of these. */
module CrewErrors {

  datatype CrewError =
    | IOError(msg: string)
    | YamlError(msg: string)
    | MissingField(msg: string)
    | InvalidConfig(msg: string)
    | ExecutionError(msg: string)
    | AsyncRuntimeError(msg: string)
    | TaskPanic(msg: string)

  /** The Display text of an error: a fixed prefix per kind, then the payload. */
  function Display(e: CrewError): (s: string)
  {
    match e
    case IOError(m) => "IO error: " + m
    case YamlError(m) => "YAML parsing error: " + m
    case MissingField(m) => "Missing required field: " + m
    case InvalidConfig(m) => "Invalid configuration: " + m
    case ExecutionError(m) => "Execution error: " + m
    case AsyncRuntimeError(m) => "Async runtime error: " + m
    case TaskPanic(m) => "Task panic: " + m
  }

  /** The rendered text always ends with the payload, so no payload is lost. */
  lemma {:induction false} DisplayEndsWithPayload(e: CrewError)
    ensures |Display(e)| > |e.msg| && Display(e)[|Display(e)| - |e.msg|..] == e.msg
  {
  }
}
