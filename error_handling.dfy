/** SolnAI's error handling (SolnAI-agents/shared/utils/error_handling.py):
    the AgentError family with its fixed codes and HTTP statuses,
    `to_dict`, and the exception handler that turns any exception into a
    status and an `{"error": ...}` body. The formatted traceback is a
    parameter. */
module ErrorHandling {
  import opened Base
  import opened PyJson

  /** The five AgentError subclasses. */
  datatype ErrorKind = Configuration | Authentication | Database | Llm | Validation

  /** An AgentError: code, message, optional details and HTTP status. */
  datatype AgentError = AgentError(code: string, message: string, details: Option<Dict>, statusCode: int)

  function KindCode(kind: ErrorKind): string
  {
    match kind
    case Configuration => "CONFIGURATION_ERROR"
    case Authentication => "AUTHENTICATION_ERROR"
    case Database => "DATABASE_ERROR"
    case Llm => "LLM_ERROR"
    case Validation => "VALIDATION_ERROR"
  }

  function KindStatus(kind: ErrorKind): int
  {
    match kind
    case Validation => 400
    case Authentication => 401
    case _ => 500
  }

  /** The subclass constructors: each fixes its code and status and keeps
      the message and details as given. */
  function NewError(kind: ErrorKind, message: string, details: Option<Dict>): (e: AgentError)
    ensures e.message == message && e.details == details
    ensures e.code == KindCode(kind) && e.statusCode == KindStatus(kind)
  {
    AgentError(KindCode(kind), message, details, KindStatus(kind))
  }

  /** The code names the subclass: no two subclasses share one. */
  lemma {:induction false} KindCodeNamesKind(k1: ErrorKind, k2: ErrorKind)
    ensures KindCode(k1) == KindCode(k2) <==> k1 == k2
  {
  }

  /** Only ValidationError is a client error (400) and only
      AuthenticationError is 401; the other three are server errors. */
  lemma {:induction false} KindStatusClasses(kind: ErrorKind)
    ensures KindStatus(kind) == 400 <==> kind == Validation
    ensures KindStatus(kind) == 401 <==> kind == Authentication
    ensures KindStatus(kind) == 500 <==> kind in {Configuration, Database, Llm}
  {
  }

  const KeyCode := "code"
  const KeyMessage := "message"
  const KeyDetails := "details"
  const KeyTrace := "trace"
  const KeyError := "error"

  function DetailsJson(details: Option<Dict>): Json
  {
    if details.Some? then JObj(details.value) else JNull
  }

  /** `to_dict(include_trace)`: code, message and details always, trace
      only when asked for. */
  function ToDict(e: AgentError, includeTrace: bool, trace: string): (d: Dict)
    ensures d.Keys == {KeyCode, KeyMessage, KeyDetails} + (if includeTrace then {KeyTrace} else {})
    ensures d[KeyCode] == JStr(e.code) && d[KeyMessage] == JStr(e.message)
    ensures d[KeyDetails] == DetailsJson(e.details)
    ensures includeTrace ==> d[KeyTrace] == JStr(trace)
  {
    var base := map[KeyCode := JStr(e.code), KeyMessage := JStr(e.message), KeyDetails := DetailsJson(e.details)];
    if includeTrace then base[KeyTrace := JStr(trace)] else base
  }

  /** The exceptions the handler sees: an AgentError, an HTTPException
      (status and str(detail)), or anything else (its str()). */
  datatype Exc =
    | Agent(err: AgentError)
    | Http(status: int, detail: string)
    | Other(text: string)

  /** The status code and the `content` dictionary `handle_exception`
      computes. */
  function HandledContent(exc: Exc, debugMode: bool, trace: string): (int, Dict)
  {
    match exc
    case Agent(err) => (err.statusCode, ToDict(err, debugMode, trace))
    case Http(status, detail) =>
      var content := map[KeyCode := JStr("HTTP_" + IntToString(status)), KeyMessage := JStr(detail), KeyDetails := JNull];
      (status, if debugMode then content[KeyTrace := JStr(trace)] else content)
    case Other(text) =>
      var content := map[KeyCode := JStr("INTERNAL_SERVER_ERROR"), KeyMessage := JStr("An unexpected error occurred"),
                         KeyDetails := if debugMode then JObj(map[KeyError := JStr(text)]) else JNull];
      (500, if debugMode then content[KeyTrace := JStr(trace)] else content)
  }

  /** The JSON response: the status and the body `{"error": content}`. */
  function HandleException(exc: Exc, debugMode: bool, trace: string): (r: (int, Dict))
    ensures r.1.Keys == {KeyError} && r.1[KeyError].JObj?
  {
    var (status, content) := HandledContent(exc, debugMode, trace);
    (status, map[KeyError := JObj(content)])
  }

  /** The content always has code, message and details, and has a trace
      exactly in debug mode. */
  lemma {:induction false} HandledContentKeys(exc: Exc, debugMode: bool, trace: string)
    ensures var content := HandledContent(exc, debugMode, trace).1;
      content.Keys == {KeyCode, KeyMessage, KeyDetails} + (if debugMode then {KeyTrace} else {})
  {
  }

  /** An AgentError keeps its own status and its to_dict; an HTTPException
      keeps its status under the code HTTP_<status>; anything else is a
      500 INTERNAL_SERVER_ERROR whose details show the exception only in
      debug mode. */
  lemma {:induction false} HandleExceptionStatus(exc: Exc, debugMode: bool, trace: string)
    ensures var (status, body) := HandleException(exc, debugMode, trace);
      && (exc.Agent? ==> status == exc.err.statusCode && body[KeyError].fields == ToDict(exc.err, debugMode, trace))
      && (exc.Http? ==> status == exc.status && body[KeyError].fields[KeyCode] == JStr("HTTP_" + IntToString(exc.status)))
      && (exc.Other? ==> status == 500 && body[KeyError].fields[KeyCode] == JStr("INTERNAL_SERVER_ERROR"))
      && (exc.Other? ==> (body[KeyError].fields[KeyDetails] != JNull <==> debugMode))
  {
  }
}
