/** SolnAI's shared API types (SolnAI-agents/shared/types/api.py): the
    request, response and message records and the validators that
    construction runs. Construction either yields the record, with each
    validated field stored as the validator returns it, or the list of
    field errors pydantic collects, in field declaration order. */
module Api {
  import opened Base
  import opened PyJson

  /** One entry of the ValidationError pydantic raises. */
  datatype FieldError = FieldError(field: string, msg: string)

  /** The errors one field contributes. */
  function ErrorsOf<T>(field: string, r: Result<T, string>): (es: seq<FieldError>)
    ensures es == [] <==> r.Ok?
  {
    if r.Err? then [FieldError(field, r.error)] else []
  }

  /** The validators' common shape: the value stripped, rejected with msg
      when nothing but whitespace is left. */
  function StrippedNonEmpty(v: string, msg: string): (r: Result<string, string>)
    ensures r.Ok? <==> !IsBlank(v)
    ensures r.Ok? ==> r.value == Strip(v) && r.value != ""
    ensures r.Err? ==> r.error == msg
  {
    StripEmptyIffBlank(v);
    if Strip(v) == "" then Err(msg) else Ok(Strip(v))
  }

  /** A value a validator returned passes that validator again unchanged. */
  lemma {:induction false} StrippedNonEmptyIdempotent(v: string, msg: string)
    requires StrippedNonEmpty(v, msg).Ok?
    ensures StrippedNonEmpty(StrippedNonEmpty(v, msg).value, msg) == StrippedNonEmpty(v, msg)
  {
    var s := Strip(v);
    StripOfStripped(s);
    StripEmptyIffBlank(s);
  }

  // ---------------------------------------------------------------------
  // Enumerations
  // ---------------------------------------------------------------------

  datatype MessageType = Human | Ai | System

  function MessageTypeValue(t: MessageType): string
  {
    match t
    case Human => "human"
    case Ai => "ai"
    case System => "system"
  }

  /** Enum validation: the member whose value is s. */
  function ParseMessageType(s: string): (r: Result<MessageType, string>)
    ensures r.Ok? ==> MessageTypeValue(r.value) == s
  {
    if s == "human" then Ok(Human)
    else if s == "ai" then Ok(Ai)
    else if s == "system" then Ok(System)
    else Err("value is not a valid enumeration member; permitted: 'human', 'ai', 'system'")
  }

  lemma {:induction false} MessageTypeRoundTrip(t: MessageType)
    ensures ParseMessageType(MessageTypeValue(t)) == Ok(t)
  {
  }

  datatype LlmRole = User | Assistant | SystemRole

  function LlmRoleValue(r: LlmRole): string
  {
    match r
    case User => "user"
    case Assistant => "assistant"
    case SystemRole => "system"
  }

  function ParseLlmRole(s: string): (r: Result<LlmRole, string>)
    ensures r.Ok? ==> LlmRoleValue(r.value) == s
  {
    if s == "user" then Ok(User)
    else if s == "assistant" then Ok(Assistant)
    else if s == "system" then Ok(SystemRole)
    else Err("value is not a valid enumeration member; permitted: 'user', 'assistant', 'system'")
  }

  lemma {:induction false} LlmRoleRoundTrip(r: LlmRole)
    ensures ParseLlmRole(LlmRoleValue(r)) == Ok(r)
  {
  }

  // ---------------------------------------------------------------------
  // AgentRequest
  // ---------------------------------------------------------------------

  const MaxQueryLength := 32000

  /** The query field: the Field length limits are checked on the value as
      given, then `validate_query` strips it and rejects an empty result. */
  function ValidateQuery(v: string): (r: Result<string, string>)
    ensures r.Ok? <==> 1 <= |v| <= MaxQueryLength && !IsBlank(v)
    ensures r.Ok? ==> r.value == Strip(v) && r.value != ""
  {
    if |v| < 1 then Err("ensure this value has at least 1 characters")
    else if |v| > MaxQueryLength then Err("ensure this value has at most 32000 characters")
    else StrippedNonEmpty(v, "Query cannot be empty")
  }

  /** `validate_ids`, shared by user_id and session_id. */
  function ValidateId(v: string): Result<string, string>
  {
    StrippedNonEmpty(v, "ID fields cannot be empty")
  }

  datatype AgentRequest = AgentRequest(query: string, userId: string, requestId: string, sessionId: string, parameters: Option<Dict>)

  /** `AgentRequest(...)`; freshId stands for `str(uuid.uuid4())`, used when
      no request_id is given. */
  function NewAgentRequest(query: string, userId: string, requestId: Option<string>, freshId: string, sessionId: string, parameters: Option<Dict>): (r: Result<AgentRequest, seq<FieldError>>)
    ensures r.Err? ==> r.error != []
  {
    var q := ValidateQuery(query);
    var u := ValidateId(userId);
    var s := ValidateId(sessionId);
    if q.Ok? && u.Ok? && s.Ok? then
      Ok(AgentRequest(q.value, u.value, if requestId.Some? then requestId.value else freshId, s.value, parameters))
    else
      Err(ErrorsOf("query", q) + ErrorsOf("user_id", u) + ErrorsOf("session_id", s))
  }

  /** The names of the fields an error list reports, in order. */
  function Fields(es: seq<FieldError>): (r: seq<string>)
    ensures |r| == |es|
  {
    if es == [] then [] else [es[0].field] + Fields(es[1..])
  }

  lemma {:induction false} FieldsAppend(a: seq<FieldError>, b: seq<FieldError>)
    ensures Fields(a + b) == Fields(a) + Fields(b)
  {
    if a == [] {
      assert a + b == b;
    } else {
      assert (a + b)[1..] == a[1..] + b;
      assert (a + b)[0] == a[0];
      FieldsAppend(a[1..], b);
    }
  }

  /** `field` when the check fails, nothing otherwise. */
  function IfBad(bad: bool, field: string): seq<string>
  {
    if bad then [field] else []
  }

  lemma {:induction false} FieldsOf<T>(field: string, r: Result<T, string>)
    ensures Fields(ErrorsOf(field, r)) == IfBad(r.Err?, field)
  {
  }

  /** A request is built exactly when the query fits the length limits and
      query, user_id and session_id are not blank; the three are stored
      stripped, the others as given. */
  lemma {:induction false} AgentRequestValidation(query: string, userId: string, requestId: Option<string>, freshId: string, sessionId: string, parameters: Option<Dict>)
    ensures var r := NewAgentRequest(query, userId, requestId, freshId, sessionId, parameters);
      && (r.Ok? <==> 1 <= |query| <= MaxQueryLength && !IsBlank(query) && !IsBlank(userId) && !IsBlank(sessionId))
      && (r.Ok? ==> r.value.query == Strip(query) && r.value.userId == Strip(userId) && r.value.sessionId == Strip(sessionId)
                    && r.value.requestId == (if requestId.Some? then requestId.value else freshId)
                    && r.value.parameters == parameters)
  {
  }

  /** Otherwise every failing field is reported, once, in declaration order. */
  lemma {:induction false} AgentRequestErrors(query: string, userId: string, requestId: Option<string>, freshId: string, sessionId: string, parameters: Option<Dict>)
    requires NewAgentRequest(query, userId, requestId, freshId, sessionId, parameters).Err?
    ensures Fields(NewAgentRequest(query, userId, requestId, freshId, sessionId, parameters).error) ==
      IfBad(!(1 <= |query| <= MaxQueryLength && !IsBlank(query)), "query")
      + IfBad(IsBlank(userId), "user_id") + IfBad(IsBlank(sessionId), "session_id")
  {
    var q := ValidateQuery(query);
    var u := ValidateId(userId);
    var s := ValidateId(sessionId);
    FieldsAppend(ErrorsOf("query", q) + ErrorsOf("user_id", u), ErrorsOf("session_id", s));
    FieldsAppend(ErrorsOf("query", q), ErrorsOf("user_id", u));
    FieldsOf("query", q);
    FieldsOf("user_id", u);
    FieldsOf("session_id", s);
  }

  /** A request built once is built again, unchanged, from its own fields. */
  lemma {:induction false} AgentRequestRevalidates(r: AgentRequest, query: string, userId: string, requestId: Option<string>, freshId: string, sessionId: string, parameters: Option<Dict>, otherId: string)
    requires NewAgentRequest(query, userId, requestId, freshId, sessionId, parameters) == Ok(r)
    ensures NewAgentRequest(r.query, r.userId, Some(r.requestId), otherId, r.sessionId, r.parameters) == Ok(r)
  {
    StrippedNonEmptyIdempotent(query, "Query cannot be empty");
    StrippedNonEmptyIdempotent(userId, "ID fields cannot be empty");
    StrippedNonEmptyIdempotent(sessionId, "ID fields cannot be empty");
    StripNotLonger(query);
  }

  lemma {:induction false} StripNotLonger(s: string)
    ensures |Strip(s)| <= |s|
  {
    var i, j :| 0 <= i <= j <= |s| && Strip(s) == s[i..j];
  }

  // ---------------------------------------------------------------------
  // AgentResponse
  // ---------------------------------------------------------------------

  const DefaultError := "An error occurred but no error message was provided"

  datatype AgentResponse = AgentResponse(success: bool, output: string, error: Option<string>, data: Option<Dict>, responseId: string, timestamp: int)

  /** `validate_error_if_not_success`: a failed response without an error
      message (None or "") gets the default one. */
  function ErrorIfNotSuccess(success: bool, error: Option<string>): Option<string>
  {
    if !success && (error.None? || error.value == "") then Some(DefaultError) else error
  }

  /** `AgentResponse(...)`; freshId and now stand for the uuid and the UTC
      clock used when response_id or timestamp are not given. */
  function NewAgentResponse(success: bool, output: string, error: Option<string>, data: Option<Dict>, responseId: Option<string>, freshId: string, timestamp: Option<int>, now: int): AgentResponse
  {
    AgentResponse(success, output, ErrorIfNotSuccess(success, error), data,
      if responseId.Some? then responseId.value else freshId,
      if timestamp.Some? then timestamp.value else now)
  }

  /** A failed response always carries a non-empty error message: the one
      given when there is one, the default otherwise; a successful response
      keeps its error as given. */
  lemma {:induction false} ResponseError(success: bool, output: string, error: Option<string>, data: Option<Dict>, responseId: Option<string>, freshId: string, timestamp: Option<int>, now: int)
    ensures var r := NewAgentResponse(success, output, error, data, responseId, freshId, timestamp, now);
      && (success ==> r.error == error)
      && (!success ==> r.error.Some? && r.error.value != "")
      && (!success && error.Some? && error.value != "" ==> r.error == error)
      && (!success && (error.None? || error.value == "") ==> r.error == Some(DefaultError))
  {
  }

  /** The root validator changes nothing the second time. */
  lemma {:induction false} ErrorIfNotSuccessIdempotent(success: bool, error: Option<string>)
    ensures ErrorIfNotSuccess(success, ErrorIfNotSuccess(success, error)) == ErrorIfNotSuccess(success, error)
  {
  }

  // ---------------------------------------------------------------------
  // Message, YouTubeVideoInfo, LLMMessage
  // ---------------------------------------------------------------------

  /** Message.validate_content and LLMMessage.validate_content. */
  function ValidateContent(v: string): Result<string, string>
  {
    StrippedNonEmpty(v, "Message content cannot be empty")
  }

  datatype Message = Message(msgType: MessageType, content: string, data: Option<Dict>, timestamp: int)

  function NewMessage(msgType: string, content: string, data: Option<Dict>, timestamp: Option<int>, now: int): (r: Result<Message, seq<FieldError>>)
    ensures r.Err? ==> r.error != []
  {
    var t := ParseMessageType(msgType);
    var c := ValidateContent(content);
    if t.Ok? && c.Ok? then Ok(Message(t.value, c.value, data, if timestamp.Some? then timestamp.value else now))
    else Err(ErrorsOf("type", t) + ErrorsOf("content", c))
  }

  /** A message is built exactly when the type is one of the three values
      and the content is not blank; the content is stored stripped, and
      the stored message is built again unchanged from its own fields. */
  lemma {:induction false} MessageValidation(msgType: string, content: string, data: Option<Dict>, timestamp: Option<int>, now: int)
    ensures var r := NewMessage(msgType, content, data, timestamp, now);
      && (r.Ok? <==> (msgType == "human" || msgType == "ai" || msgType == "system") && !IsBlank(content))
      && (r.Ok? ==> MessageTypeValue(r.value.msgType) == msgType && r.value.content == Strip(content)
                    && NewMessage(MessageTypeValue(r.value.msgType), r.value.content, r.value.data, Some(r.value.timestamp), now) == r)
  {
    var r := NewMessage(msgType, content, data, timestamp, now);
    if r.Ok? {
      StrippedNonEmptyIdempotent(content, "Message content cannot be empty");
      MessageTypeRoundTrip(r.value.msgType);
    }
  }

  datatype VideoInfo = VideoInfo(
    videoId: string, title: string, description: Option<string>, channelTitle: Option<string>,
    publishedAt: Option<string>, thumbnailUrl: Option<string>, duration: Option<string>,
    viewCount: Option<int>, likeCount: Option<int>, commentCount: Option<int>)

  /** YouTubeVideoInfo: only video_id is validated. */
  function NewVideoInfo(info: VideoInfo): (r: Result<VideoInfo, seq<FieldError>>)
    ensures r.Ok? <==> !IsBlank(info.videoId)
    ensures r.Ok? ==> r.value == info.(videoId := Strip(info.videoId))
    ensures r.Err? ==> r.error == [FieldError("video_id", "Video ID cannot be empty")]
  {
    var v := StrippedNonEmpty(info.videoId, "Video ID cannot be empty");
    if v.Ok? then Ok(info.(videoId := v.value)) else Err(ErrorsOf("video_id", v))
  }

  datatype LlmMessage = LlmMessage(role: LlmRole, content: string, name: Option<string>)

  function NewLlmMessage(role: string, content: string, name: Option<string>): (r: Result<LlmMessage, seq<FieldError>>)
    ensures r.Err? ==> r.error != []
  {
    var ro := ParseLlmRole(role);
    var c := ValidateContent(content);
    if ro.Ok? && c.Ok? then Ok(LlmMessage(ro.value, c.value, name))
    else Err(ErrorsOf("role", ro) + ErrorsOf("content", c))
  }

  /** An LLM message is built exactly when the role is user, assistant or
      system and the content is not blank; the content is stored stripped
      and the stored message is built again unchanged. */
  lemma {:induction false} LlmMessageValidation(role: string, content: string, name: Option<string>)
    ensures var r := NewLlmMessage(role, content, name);
      && (r.Ok? <==> (role == "user" || role == "assistant" || role == "system") && !IsBlank(content))
      && (r.Ok? ==> LlmRoleValue(r.value.role) == role && r.value.content == Strip(content)
                    && NewLlmMessage(LlmRoleValue(r.value.role), r.value.content, r.value.name) == r)
  {
    var r := NewLlmMessage(role, content, name);
    if r.Ok? {
      StrippedNonEmptyIdempotent(content, "Message content cannot be empty");
      LlmRoleRoundTrip(r.value.role);
    }
  }
}
