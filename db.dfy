/** SolnAI's database helpers (SolnAI-agents/shared/utils/db.py): the
    Supabase settings read from the environment, the message row that
    `store_message` inserts, the chronological order `fetch_conversation_history`
    returns, and `format_conversation_history`, which turns stored rows into
    chat messages for a model provider. The Supabase client is foreign code:
    a query's rows, or its failure, are passed in. */
module Db {
  import opened Base
  import opened PyJson

  // ---------------------------------------------------------------------
  // get_supabase_client
  // ---------------------------------------------------------------------

  /** `os.getenv(name)`, with an unset variable read as "" (both are falsy). */
  function Env(env: map<string, string>, name: string): string
  {
    if name in env then env[name] else ""
  }

  /** The URL and key `create_client` receives: SUPABASE_KEY, or
      SUPABASE_SERVICE_KEY when that one is unset or empty. */
  function SupabaseSettings(env: map<string, string>): (r: Result<(string, string), string>)
    ensures r.Ok? <==> Env(env, "SUPABASE_URL") != "" && (Env(env, "SUPABASE_KEY") != "" || Env(env, "SUPABASE_SERVICE_KEY") != "")
    ensures r.Ok? ==> r.value.0 == Env(env, "SUPABASE_URL")
    ensures r.Ok? && Env(env, "SUPABASE_KEY") != "" ==> r.value.1 == Env(env, "SUPABASE_KEY")
    ensures r.Ok? && Env(env, "SUPABASE_KEY") == "" ==> r.value.1 == Env(env, "SUPABASE_SERVICE_KEY")
    ensures r.Err? ==> r.error == "SUPABASE_URL and SUPABASE_KEY (or SUPABASE_SERVICE_KEY) must be set"
  {
    var url := Env(env, "SUPABASE_URL");
    var key := if Env(env, "SUPABASE_KEY") != "" then Env(env, "SUPABASE_KEY") else Env(env, "SUPABASE_SERVICE_KEY");
    if url == "" || key == "" then Err("SUPABASE_URL and SUPABASE_KEY (or SUPABASE_SERVICE_KEY) must be set")
    else Ok((url, key))
  }

  // ---------------------------------------------------------------------
  // fetch_conversation_history and store_message
  // ---------------------------------------------------------------------

  /** The HTTPException both database calls raise when the client fails. */
  datatype HttpError = HttpError(statusCode: int, detail: string)

  /** `xs[::-1]`. */
  function Reversed<T>(xs: seq<T>): seq<T>
  {
    if xs == [] then [] else Reversed(xs[1..]) + [xs[0]]
  }

  lemma {:induction false} ReversedAt<T>(xs: seq<T>)
    ensures |Reversed(xs)| == |xs|
    ensures forall i :: 0 <= i < |xs| ==> Reversed(xs)[i] == xs[|xs| - 1 - i]
  {
    if xs != [] {
      ReversedAt(xs[1..]);
    }
  }

  lemma {:induction false} ReversedTwice<T>(xs: seq<T>)
    ensures Reversed(Reversed(xs)) == xs
  {
    ReversedAt(xs);
    ReversedAt(Reversed(xs));
  }

  /** The rows come back newest first (ordered by created_at, descending,
      at most `limit` of them); the messages are returned oldest first. */
  function FetchConversationHistory(response: Result<seq<Dict>, string>): (r: Result<seq<Dict>, HttpError>)
    ensures response.Err? <==> r.Err?
    ensures r.Err? ==> r.error == HttpError(500, "Failed to fetch conversation history: " + response.error)
  {
    if response.Err? then Err(HttpError(500, "Failed to fetch conversation history: " + response.error))
    else Ok(Reversed(response.value))
  }

  /** The rows are returned as the same messages, in the opposite order:
      rows newest first under `later` come back oldest first. */
  lemma {:induction false} ChronologicalOrder(rows: seq<Dict>, later: (Dict, Dict) -> bool)
    requires forall i, j :: 0 <= i < j < |rows| ==> later(rows[i], rows[j])
    ensures var r := FetchConversationHistory(Ok(rows));
      && r.Ok? && |r.value| == |rows|
      && multiset(r.value) == multiset(rows)
      && forall i, j :: 0 <= i < j < |r.value| ==> later(r.value[j], r.value[i])
  {
    var r := Reversed(rows);
    ReversedAt(rows);
    assert multiset(r) == multiset(rows) by {
      ReversedMultiset(rows);
    }
    forall i, j | 0 <= i < j < |r|
      ensures later(r[j], r[i])
    {
      assert r[i] == rows[|rows| - 1 - i] && r[j] == rows[|rows| - 1 - j];
    }
  }

  lemma {:induction false} ReversedMultiset<T>(xs: seq<T>)
    ensures multiset(Reversed(xs)) == multiset(xs)
  {
    if xs != [] {
      ReversedMultiset(xs[1..]);
      assert xs == [xs[0]] + xs[1..];
    }
  }

  /** The `message` object `store_message` stores: type and content, plus
      `data` when it is given and non-empty. */
  function MessageObject(messageType: string, content: string, data: Option<Dict>): (m: Dict)
    ensures m.Keys == {"type", "content"} + (if data.Some? && data.value != map[] then {"data"} else {})
    ensures m["type"] == JStr(messageType) && m["content"] == JStr(content)
    ensures data.Some? && data.value != map[] ==> m["data"] == JObj(data.value)
  {
    var m := map["type" := JStr(messageType), "content" := JStr(content)];
    if data.Some? && data.value != map[] then m["data" := JObj(data.value)] else m
  }

  /** The row inserted into the messages table. */
  function StoredRow(sessionId: string, messageType: string, content: string, data: Option<Dict>): (row: Dict)
    ensures row.Keys == {"session_id", "message"}
    ensures row["session_id"] == JStr(sessionId)
    ensures row["message"] == JObj(MessageObject(messageType, content, data))
  {
    map["session_id" := JStr(sessionId), "message" := JObj(MessageObject(messageType, content, data))]
  }

  /** What `store_message` returns: the first created record, or {} when
      the insert returns none. */
  function StoreMessage(response: Result<seq<Dict>, string>): (r: Result<Dict, HttpError>)
    ensures response.Err? <==> r.Err?
    ensures r.Err? ==> r.error == HttpError(500, "Failed to store message: " + response.error)
    ensures r.Ok? ==> (r.value == if response.value == [] then map[] else response.value[0])
  {
    if response.Err? then Err(HttpError(500, "Failed to store message: " + response.error))
    else if response.value == [] then Ok(map[])
    else Ok(response.value[0])
  }

  // ---------------------------------------------------------------------
  // format_conversation_history
  // ---------------------------------------------------------------------

  /** One formatted message: `{"role": ..., "content": ...}`. */
  datatype Chat = Chat(role: Json, content: Json)

  /** The TypeError raised when `msg["message"]` is not a dictionary. */
  const NotSubscriptable := "TypeError: message is not a dictionary"

  /** A row that formats without raising. */
  predicate WellFormed(msg: Dict)
  {
    "message" in msg && msg["message"].JObj?
    && "type" in msg["message"].fields && "content" in msg["message"].fields
  }

  /** The role a stored type takes in the given format: for "openai",
      "human" becomes "user" and every other type "assistant"; any other
      format keeps the stored type. */
  function Role(msgType: Json, formatType: string): Json
  {
    if formatType == "openai" then (if msgType == JStr("human") then JStr("user") else JStr("assistant"))
    else msgType
  }

  /** One iteration of the loop: the row's message type and content, or the
      KeyError / TypeError the subscripts raise. */
  function FormatOne(msg: Dict, formatType: string): (r: Result<Chat, string>)
    ensures r.Ok? <==> WellFormed(msg)
    ensures r.Ok? ==> r.value == Chat(Role(msg["message"].fields["type"], formatType), msg["message"].fields["content"])
  {
    match Require(msg, "message")
    case Err(e) => Err(e)
    case Ok(data) =>
      if !data.JObj? then Err(NotSubscriptable)
      else
        match Require(data.fields, "type")
        case Err(e) => Err(e)
        case Ok(msgType) =>
          match Require(data.fields, "content")
          case Err(e) => Err(e)
          case Ok(content) => Ok(Chat(Role(msgType, formatType), content))
  }

  function FormatAll(messages: seq<Dict>, formatType: string): Result<seq<Chat>, string>
  {
    MapAll((m: Dict) => FormatOne(m, formatType), messages)
  }

  /** `format_conversation_history`: the loop appending one formatted
      message per row. */
  method FormatConversationHistory(messages: seq<Dict>, formatType: string) returns (r: Result<seq<Chat>, string>)
    ensures r == FormatAll(messages, formatType)
  {
    var formatted: seq<Chat> := [];
    for k := 0 to |messages|
      invariant |formatted| == k
      invariant forall i :: 0 <= i < k ==> FormatOne(messages[i], formatType) == Ok(formatted[i])
    {
      var msg := messages[k];
      if "message" !in msg {
        MapAllFirstError((m: Dict) => FormatOne(m, formatType), messages, k);
        return Err(KeyError("message"));
      }
      var msgData := msg["message"];
      if !msgData.JObj? {
        MapAllFirstError((m: Dict) => FormatOne(m, formatType), messages, k);
        return Err(NotSubscriptable);
      }
      if "type" !in msgData.fields {
        MapAllFirstError((m: Dict) => FormatOne(m, formatType), messages, k);
        return Err(KeyError("type"));
      }
      var msgType := msgData.fields["type"];
      if "content" !in msgData.fields {
        MapAllFirstError((m: Dict) => FormatOne(m, formatType), messages, k);
        return Err(KeyError("content"));
      }
      var msgContent := msgData.fields["content"];
      var role: Json;
      if formatType == "openai" {
        role := if msgType == JStr("human") then JStr("user") else JStr("assistant");
      } else if formatType == "anthropic" {
        role := msgType;
      } else {
        role := msgType;
      }
      formatted := formatted + [Chat(role, msgContent)];
    }
    r := Ok(formatted);
    var f := (m: Dict) => FormatOne(m, formatType);
    assert forall i :: 0 <= i < |messages| ==> f(messages[i]).Ok?;
    var all := MapAll(f, messages);
    assert all.Ok? && |all.value| == |formatted|;
    forall i | 0 <= i < |formatted|
      ensures all.value[i] == formatted[i]
    {
      assert f(messages[i]) == Ok(all.value[i]);
    }
    assert all.value == formatted;
  }

  /** One message per row, in the same order, each with the row's content
      verbatim; the call fails exactly when some row is malformed, and then
      with the first malformed row's error. */
  lemma {:induction false} FormatAllShape(messages: seq<Dict>, formatType: string)
    ensures var r := FormatAll(messages, formatType);
      && (r.Ok? <==> forall i :: 0 <= i < |messages| ==> WellFormed(messages[i]))
      && (r.Ok? ==> |r.value| == |messages|
                    && forall i :: 0 <= i < |messages| ==> r.value[i].content == messages[i]["message"].fields["content"])
    ensures forall k :: 0 <= k < |messages| && !WellFormed(messages[k]) && (forall i :: 0 <= i < k ==> WellFormed(messages[i])) ==>
      FormatAll(messages, formatType) == Err(FormatOne(messages[k], formatType).error)
  {
    var f := (m: Dict) => FormatOne(m, formatType);
    forall k | 0 <= k < |messages| && !WellFormed(messages[k]) && (forall i :: 0 <= i < k ==> WellFormed(messages[i]))
      ensures FormatAll(messages, formatType) == Err(FormatOne(messages[k], formatType).error)
    {
      MapAllFirstError(f, messages, k);
    }
  }

  /** In the OpenAI format every role is "user" or "assistant", and "user"
      exactly for stored type "human"; in every other format the role is
      the stored type. */
  lemma {:induction false} Roles(messages: seq<Dict>, formatType: string)
    requires FormatAll(messages, formatType).Ok?
    ensures var out := FormatAll(messages, formatType).value;
      forall i :: 0 <= i < |messages| ==>
        var t := messages[i]["message"].fields["type"];
        && (formatType == "openai" ==> out[i].role == JStr("user") || out[i].role == JStr("assistant"))
        && (formatType == "openai" ==> (out[i].role == JStr("user") <==> t == JStr("human")))
        && (formatType != "openai" ==> out[i].role == t)
  {
  }

  /** Rows written by `store_message` always format, and come back with the
      content and (mapped) type they were stored with, whatever extra data
      was stored beside them. */
  lemma {:induction false} StoredRowsFormat(sessionId: string, types: seq<string>, contents: seq<string>, data: seq<Option<Dict>>, formatType: string)
    requires |types| == |contents| == |data|
    ensures var rows := seq(|types|, i requires 0 <= i < |types| => StoredRow(sessionId, types[i], contents[i], data[i]));
      var r := FormatAll(rows, formatType);
      && r.Ok? && |r.value| == |types|
      && forall i :: 0 <= i < |types| ==> r.value[i] == Chat(Role(JStr(types[i]), formatType), JStr(contents[i]))
  {
    var rows := seq(|types|, i requires 0 <= i < |types| => StoredRow(sessionId, types[i], contents[i], data[i]));
    forall i | 0 <= i < |rows|
      ensures WellFormed(rows[i])
    {
      assert rows[i] == StoredRow(sessionId, types[i], contents[i], data[i]);
    }
    FormatAllShape(rows, formatType);
  }
}
