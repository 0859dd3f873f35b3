/** AutoGroq's `AgentBaseModel` (AutoGroq/AutoGroq/models/agent_base_model.py):
    an agent record whose tools are ToolBaseModel records, its dictionary
    form and back. */
module AgentModel {
  import opened Base
  import opened PyJson
  import ToolModel

  type Tool = ToolModel.Tool

  datatype Agent = Agent(
    id: Option<int>,
    name: string,
    description: string,
    tools: seq<Tool>,
    config: Dict,
    role: string,
    goal: string,
    backstory: string,
    provider: Option<string>,
    model: Option<string>,
    createdAt: Option<string>,
    updatedAt: Option<string>,
    userId: Option<string>,
    workflows: Option<string>,
    agentType: Option<string>,
    models: Option<seq<Dict>>,
    verbose: Option<bool>,
    allowDelegation: Option<bool>,
    newDescription: Option<string>,
    timestamp: Option<string>,
    isTerminationMsg: Option<bool>,
    codeExecutionConfig: Option<Dict>,
    llm: Option<string>,
    functionCallingLlm: Option<string>,
    maxIter: Option<int>,
    maxRpm: Option<int>,
    maxExecutionTime: Option<int>,
    stepCallback: Option<nat>,
    cache: Option<bool>)

  /** A tool as the constructor accepts it: a ToolBaseModel or a dict of
      keyword arguments for one. */
  datatype ToolArg = ToolObject(tool: Tool) | ToolDict(kwargs: Dict)

  predicate ToolArgTyped(a: ToolArg)
  {
    a.ToolDict? ==> ToolModel.ToolKwargsTyped(a.kwargs)
  }

  /** The argument is a ToolBaseModel or a valid set of keyword arguments. */
  predicate Converts(a: ToolArg)
  {
    a.ToolObject? || (ToolModel.ToolKwargsTyped(a.kwargs) && ToolModel.FromKwargs(a.kwargs).Ok?)
  }

  /** One element of the constructor's tools list. */
  function ConvertTool(a: ToolArg): (r: Result<Tool, string>)
    requires ToolArgTyped(a)
    ensures r.Ok? <==> Converts(a)
    ensures a.ToolObject? ==> r == Ok(a.tool)
  {
    if a.ToolObject? then Ok(a.tool) else ToolModel.FromKwargs(a.kwargs)
  }

  /** The tools list of the constructor: dict tools become ToolBaseModel
      records, ToolBaseModel tools are kept as they are; the first dict
      that is not a valid set of arguments raises. */
  function ConvertTools(args: seq<ToolArg>): (r: Result<seq<Tool>, string>)
    requires forall i :: 0 <= i < |args| ==> ToolArgTyped(args[i])
    ensures r.Ok? <==> forall i :: 0 <= i < |args| ==> Converts(args[i])
    ensures r.Ok? ==> |r.value| == |args| && forall i :: 0 <= i < |args| ==> Ok(r.value[i]) == ConvertTool(args[i])
    ensures r.Err? ==> exists i :: 0 <= i < |args| && ConvertTool(args[i]) == Err(r.error)
    decreases |args|
  {
    if |args| == 0 then Ok([])
    else
      var first := ConvertTool(args[0]);
      if first.Err? then Err(first.error)
      else
        var rest := ConvertTools(args[1..]);
        assert forall i :: 0 < i < |args| ==> args[i] == args[1..][i - 1];
        if rest.Err? then
          Err(rest.error)
        else
          var r := [first.value] + rest.value;
          assert forall i :: 0 < i < |args| ==> r[i] == rest.value[i - 1];
          Ok(r)
  }

  /** `AgentBaseModel(...)`: every argument is stored as given, except
      that the tools are converted. */
  function NewAgent(fields: Agent, tools: seq<ToolArg>): (r: Result<Agent, string>)
    requires forall i :: 0 <= i < |tools| ==> ToolArgTyped(tools[i])
    ensures r.Ok? <==> forall i :: 0 <= i < |tools| ==> Converts(tools[i])
    ensures r.Ok? ==> r.value.(tools := fields.tools) == fields && |r.value.tools| == |tools|
  {
    var converted := ConvertTools(tools);
    if converted.Err? then Err(converted.error) else Ok(fields.(tools := converted.value))
  }

  /** A list of ToolBaseModel objects is kept as it is. */
  lemma {:induction false} ConvertToolsKeepsObjects(tools: seq<Tool>)
    ensures ConvertTools(seq(|tools|, i requires 0 <= i < |tools| => ToolObject(tools[i]))) == Ok(tools)
  {
    var args := seq(|tools|, i requires 0 <= i < |tools| => ToolObject(tools[i]));
    var r := ConvertTools(args);
    assert forall i :: 0 <= i < |args| ==> Converts(args[i]);
    assert forall i :: 0 <= i < |tools| ==> r.value[i] == tools[i];
    assert r.value == tools;
  }

  /** A tool given as its own dictionary is rebuilt without its function. */
  lemma {:induction false} ConvertToolDict(t: Tool)
    requires ToolModel.Constructed(t)
    ensures ToolArgTyped(ToolDict(ToolModel.ToDict(t)))
    ensures ConvertTool(ToolDict(ToolModel.ToDict(t))) == Ok(t.(callable := None))
  {
    ToolModel.KwargsRoundTrip(t);
  }

  /** `str(a)`. */
  function AgentText(a: Agent): (s: string)
    ensures StartsWith(s, "Agent(name=") && EndsWith(s, ")")
    ensures |s| == |a.name| + |a.description| + 26
    ensures s[11..11 + |a.name|] == a.name
  {
    var s := "Agent(name=" + a.name + ", description=" + a.description + ")";
    assert s[..11] == "Agent(name=";
    assert s[|s| - 1..] == ")";
    assert s[11..11 + |a.name|] == a.name;
    s
  }

  function DictOpt(o: Option<Dict>): Json
  {
    if o.Some? then JObj(o.value) else JNull
  }

  function DictListOpt(o: Option<seq<Dict>>): Json
  {
    if o.Some? then DictList(o.value) else JNull
  }

  function CallableOpt(o: Option<nat>): Json
  {
    if o.Some? then JOpaque(o.value) else JNull
  }

  function ToolDicts(tools: seq<Tool>): (r: Json)
    ensures r.JList? && |r.items| == |tools|
    ensures forall i :: 0 <= i < |tools| ==> r.items[i] == JObj(ToolModel.ToDict(tools[i]))
  {
    JList(seq(|tools|, i requires 0 <= i < |tools| => JObj(ToolModel.ToDict(tools[i]))))
  }

  // The keys of the dictionary form, one per attribute.
  const KeyId: string := "id"
  const KeyName: string := "name"
  const KeyDescription: string := "description"
  const KeyTools: string := "tools"
  const KeyProvider: string := "provider"
  const KeyModel: string := "model"
  const KeyConfig: string := "config"
  const KeyRole: string := "role"
  const KeyGoal: string := "goal"
  const KeyBackstory: string := "backstory"
  const KeyCreatedAt: string := "created_at"
  const KeyUpdatedAt: string := "updated_at"
  const KeyUserId: string := "user_id"
  const KeyWorkflows: string := "workflows"
  const KeyType: string := "type"
  const KeyModels: string := "models"
  const KeyVerbose: string := "verbose"
  const KeyAllowDelegation: string := "allow_delegation"
  const KeyNewDescription: string := "new_description"
  const KeyTimestamp: string := "timestamp"
  const KeyIsTerminationMsg: string := "is_termination_msg"
  const KeyCodeExecutionConfig: string := "code_execution_config"
  const KeyLlm: string := "llm"
  const KeyFunctionCallingLlm: string := "function_calling_llm"
  const KeyMaxIter: string := "max_iter"
  const KeyMaxRpm: string := "max_rpm"
  const KeyMaxExecutionTime: string := "max_execution_time"
  const KeyStepCallback: string := "step_callback"
  const KeyCache: string := "cache"

  /** to_dict: every attribute, tools through their own to_dict. */
  function ToDict(a: Agent): Dict
  {
    map[
      KeyId := IntOpt(a.id),
      KeyName := JStr(a.name),
      KeyDescription := JStr(a.description),
      KeyTools := ToolDicts(a.tools),
      KeyProvider := StrOpt(a.provider),
      KeyModel := StrOpt(a.model),
      KeyConfig := JObj(a.config),
      KeyRole := JStr(a.role),
      KeyGoal := JStr(a.goal),
      KeyBackstory := JStr(a.backstory),
      KeyCreatedAt := StrOpt(a.createdAt),
      KeyUpdatedAt := StrOpt(a.updatedAt),
      KeyUserId := StrOpt(a.userId),
      KeyWorkflows := StrOpt(a.workflows),
      KeyType := StrOpt(a.agentType),
      KeyModels := DictListOpt(a.models),
      KeyVerbose := BoolOpt(a.verbose),
      KeyAllowDelegation := BoolOpt(a.allowDelegation),
      KeyNewDescription := StrOpt(a.newDescription),
      KeyTimestamp := StrOpt(a.timestamp),
      KeyIsTerminationMsg := BoolOpt(a.isTerminationMsg),
      KeyCodeExecutionConfig := DictOpt(a.codeExecutionConfig),
      KeyLlm := StrOpt(a.llm),
      KeyFunctionCallingLlm := StrOpt(a.functionCallingLlm),
      KeyMaxIter := IntOpt(a.maxIter),
      KeyMaxRpm := IntOpt(a.maxRpm),
      KeyMaxExecutionTime := IntOpt(a.maxExecutionTime),
      KeyStepCallback := CallableOpt(a.stepCallback),
      KeyCache := BoolOpt(a.cache)]
  }

  predicate ToolDictsTyped(j: Json)
  {
    j.JList? && forall i :: 0 <= i < |j.items| ==> j.items[i].JObj? && ToolModel.ToolDictTyped(j.items[i].fields)
  }

  /** A dictionary whose values have the constructor's annotated types. */
  predicate AgentDictTyped(data: Dict)
  {
    TypedPart1(data) && TypedPart2(data) && TypedPart3(data)
  }

  predicate TypedPart1(data: Dict)
  {
    && (KeyTools in data ==> ToolDictsTyped(data[KeyTools]))
    && (KeyId in data ==> IsIntOpt(data[KeyId]))
    && (KeyName in data ==> data[KeyName].JStr?) && (KeyDescription in data ==> data[KeyDescription].JStr?)
    && (KeyConfig in data ==> data[KeyConfig].JObj?)
    && (KeyRole in data ==> data[KeyRole].JStr?) && (KeyGoal in data ==> data[KeyGoal].JStr?)
    && (KeyBackstory in data ==> data[KeyBackstory].JStr?)
    && (KeyProvider in data ==> IsStrOpt(data[KeyProvider])) && (KeyModel in data ==> IsStrOpt(data[KeyModel]))
    && (KeyCreatedAt in data ==> IsStrOpt(data[KeyCreatedAt])) && (KeyUpdatedAt in data ==> IsStrOpt(data[KeyUpdatedAt]))
  }

  predicate TypedPart2(data: Dict)
  {
    && (KeyUserId in data ==> IsStrOpt(data[KeyUserId])) && (KeyWorkflows in data ==> IsStrOpt(data[KeyWorkflows]))
    && (KeyType in data ==> IsStrOpt(data[KeyType]))
    && (KeyModels in data ==> data[KeyModels].JNull? || IsDictList(data[KeyModels]))
    && (KeyVerbose in data ==> IsBoolOpt(data[KeyVerbose]))
    && (KeyAllowDelegation in data ==> IsBoolOpt(data[KeyAllowDelegation]))
    && (KeyNewDescription in data ==> IsStrOpt(data[KeyNewDescription]))
    && (KeyTimestamp in data ==> IsStrOpt(data[KeyTimestamp]))
    && (KeyIsTerminationMsg in data ==> IsBoolOpt(data[KeyIsTerminationMsg]))
  }

  predicate TypedPart3(data: Dict)
  {
    && (KeyCodeExecutionConfig in data ==> data[KeyCodeExecutionConfig].JNull? || data[KeyCodeExecutionConfig].JObj?)
    && (KeyLlm in data ==> IsStrOpt(data[KeyLlm]))
    && (KeyFunctionCallingLlm in data ==> IsStrOpt(data[KeyFunctionCallingLlm]))
    && (KeyMaxIter in data ==> IsIntOpt(data[KeyMaxIter])) && (KeyMaxRpm in data ==> IsIntOpt(data[KeyMaxRpm]))
    && (KeyMaxExecutionTime in data ==> IsIntOpt(data[KeyMaxExecutionTime]))
    && (KeyStepCallback in data ==> data[KeyStepCallback].JNull? || data[KeyStepCallback].JOpaque?)
    && (KeyCache in data ==> IsBoolOpt(data[KeyCache]))
  }

  /** The tools of from_dict, each read by ToolBaseModel.from_dict. */
  function ToolsFromDicts(items: seq<Json>): (r: Result<seq<Tool>, string>)
    requires forall i :: 0 <= i < |items| ==> items[i].JObj? && ToolModel.ToolDictTyped(items[i].fields)
    ensures r.Ok? ==> |r.value| == |items|
    ensures r.Ok? ==> forall i :: 0 <= i < |items| ==> Ok(r.value[i]) == ToolModel.FromDict(items[i].fields)
    ensures r.Ok? ==> forall t :: t in r.value ==> t.callable.None? && ToolModel.Constructed(t)
    decreases |items|
  {
    if |items| == 0 then Ok([])
    else
      assert forall i :: 0 < i < |items| ==> items[i] == items[1..][i - 1];
      var first := ToolModel.FromDict(items[0].fields);
      if first.Err? then Err(first.error)
      else
        var rest := ToolsFromDicts(items[1..]);
        if rest.Err? then rest
        else
          var r := [first.value] + rest.value;
          assert forall i :: 0 < i < |items| ==> r[i] == rest.value[i - 1] && items[i] == items[1..][i - 1];
          Ok(r)
  }

  function StrAt(data: Dict, key: string, default: string): string
    requires key in data ==> data[key].JStr?
  {
    if key in data then data[key].s else default
  }

  /** `data.get(key, default)` read as an optional bool. */
  function BoolAt(data: Dict, key: string, default: bool): Option<bool>
    requires key in data ==> IsBoolOpt(data[key])
  {
    AsBoolOpt(Get(data, key, JBool(default)))
  }

  /** from_dict: tools first, then name, description and config must be
      present; role, goal and backstory default to "", verbose to False,
      allow_delegation to True, max_iter to 25 and cache to True. */
  function FromDict(data: Dict): (r: Result<Agent, string>)
    requires AgentDictTyped(data)
    ensures r.Ok? ==> KeyName in data && KeyDescription in data && KeyConfig in data
    ensures r.Ok? ==> r.value.role == StrAt(data, KeyRole, "")
    ensures r.Ok? ==> r.value.goal == StrAt(data, KeyGoal, "")
    ensures r.Ok? ==> r.value.backstory == StrAt(data, KeyBackstory, "")
    ensures r.Ok? && KeyVerbose !in data ==> r.value.verbose == Some(false)
    ensures r.Ok? && KeyAllowDelegation !in data ==> r.value.allowDelegation == Some(true)
    ensures r.Ok? && KeyMaxIter !in data ==> r.value.maxIter == Some(25)
    ensures r.Ok? && KeyCache !in data ==> r.value.cache == Some(true)
    ensures r.Ok? ==> forall t :: t in r.value.tools ==> t.callable.None? && ToolModel.Constructed(t)
  {
    var toolsJson := Get(data, KeyTools, JList([]));
    var tools := ToolsFromDicts(toolsJson.items);
    if tools.Err? then Err(tools.error)
    else if KeyName !in data then Err(KeyError(KeyName))
    else if KeyDescription !in data then Err(KeyError(KeyDescription))
    else if KeyConfig !in data then Err(KeyError(KeyConfig))
    else
      var models := Get(data, KeyModels, JNull);
      var cec := Get(data, KeyCodeExecutionConfig, JNull);
      var cb := Get(data, KeyStepCallback, JNull);
      Ok(Agent(
        AsIntOpt(Get(data, KeyId, JNull)),
        data[KeyName].s,
        data[KeyDescription].s,
        tools.value,
        data[KeyConfig].fields,
        StrAt(data, KeyRole, ""),
        StrAt(data, KeyGoal, ""),
        StrAt(data, KeyBackstory, ""),
        AsStrOpt(Get(data, KeyProvider, JNull)),
        AsStrOpt(Get(data, KeyModel, JNull)),
        AsStrOpt(Get(data, KeyCreatedAt, JNull)),
        AsStrOpt(Get(data, KeyUpdatedAt, JNull)),
        AsStrOpt(Get(data, KeyUserId, JNull)),
        AsStrOpt(Get(data, KeyWorkflows, JNull)),
        AsStrOpt(Get(data, KeyType, JNull)),
        AsDictListOpt(models),
        BoolAt(data, KeyVerbose, false),
        BoolAt(data, KeyAllowDelegation, true),
        AsStrOpt(Get(data, KeyNewDescription, JNull)),
        AsStrOpt(Get(data, KeyTimestamp, JNull)),
        AsBoolOpt(Get(data, KeyIsTerminationMsg, JNull)),
        if cec.JObj? then Some(cec.fields) else None,
        AsStrOpt(Get(data, KeyLlm, JNull)),
        AsStrOpt(Get(data, KeyFunctionCallingLlm, JNull)),
        AsIntOpt(Get(data, KeyMaxIter, JInt(25))),
        AsIntOpt(Get(data, KeyMaxRpm, JNull)),
        AsIntOpt(Get(data, KeyMaxExecutionTime, JNull)),
        if cb.JOpaque? then Some(cb.ref) else None,
        BoolAt(data, KeyCache, true)))
  }

  /** The tools without their functions, as from_dict rebuilds them. */
  function WithoutCallables(tools: seq<Tool>): (r: seq<Tool>)
    ensures |r| == |tools| && forall i :: 0 <= i < |tools| ==> r[i] == tools[i].(callable := None)
  {
    seq(|tools|, i requires 0 <= i < |tools| => tools[i].(callable := None))
  }

  /** A constructed agent holds constructed tools. */
  predicate Constructed(a: Agent)
  {
    forall t :: t in a.tools ==> ToolModel.Constructed(t)
  }

  lemma {:induction false} ToolDictsRoundTrip(tools: seq<Tool>)
    requires forall t :: t in tools ==> ToolModel.Constructed(t)
    ensures ToolDictsTyped(ToolDicts(tools))
    ensures ToolsFromDicts(ToolDicts(tools).items) == Ok(WithoutCallables(tools))
  {
    var items := ToolDicts(tools).items;
    forall i | 0 <= i < |tools|
      ensures items[i].JObj? && ToolModel.ToolDictTyped(items[i].fields)
      ensures ToolModel.FromDict(items[i].fields) == Ok(tools[i].(callable := None))
    {
      assert tools[i] in tools;
      ToolModel.RoundTrip(tools[i]);
    }
    ToolsFromDictsOk(items);
    var r := ToolsFromDicts(items).value;
    assert forall i :: 0 <= i < |tools| ==> r[i] == WithoutCallables(tools)[i];
    assert r == WithoutCallables(tools);
  }

  /** When every element reads, so does the list. */
  lemma {:induction false} ToolsFromDictsOk(items: seq<Json>)
    requires forall i :: 0 <= i < |items| ==> items[i].JObj? && ToolModel.ToolDictTyped(items[i].fields)
    requires forall i :: 0 <= i < |items| ==> ToolModel.FromDict(items[i].fields).Ok?
    ensures ToolsFromDicts(items).Ok?
    decreases |items|
  {
    if |items| > 0 {
      assert forall i :: 0 <= i < |items| - 1 ==> items[1..][i] == items[i + 1];
      ToolsFromDictsOk(items[1..]);
    }
  }

  /** The entries of `to_dict(a)`, in groups. */
  lemma {:induction false} ToDictEntries1(a: Agent)
    ensures var d := ToDict(a);
      && KeyId in d && d[KeyId] == IntOpt(a.id)
  {
  }

  lemma {:induction false} ToDictEntries2(a: Agent)
    ensures var d := ToDict(a);
      && KeyName in d && d[KeyName] == JStr(a.name)
  {
  }

  lemma {:induction false} ToDictEntries3(a: Agent)
    ensures var d := ToDict(a);
      && KeyDescription in d && d[KeyDescription] == JStr(a.description)
  {
  }

  lemma {:induction false} ToDictEntries4(a: Agent)
    ensures var d := ToDict(a);
      && KeyTools in d && d[KeyTools] == ToolDicts(a.tools)
  {
  }

  lemma {:induction false} ToDictEntries5(a: Agent)
    ensures var d := ToDict(a);
      && KeyProvider in d && d[KeyProvider] == StrOpt(a.provider)
  {
  }

  lemma {:induction false} ToDictEntries6(a: Agent)
    ensures var d := ToDict(a);
      && KeyModel in d && d[KeyModel] == StrOpt(a.model)
  {
  }

  lemma {:induction false} ToDictEntries7(a: Agent)
    ensures var d := ToDict(a);
      && KeyConfig in d && d[KeyConfig] == JObj(a.config)
  {
  }

  lemma {:induction false} ToDictEntries8(a: Agent)
    ensures var d := ToDict(a);
      && KeyRole in d && d[KeyRole] == JStr(a.role)
  {
  }

  lemma {:induction false} ToDictEntries9(a: Agent)
    ensures var d := ToDict(a);
      && KeyGoal in d && d[KeyGoal] == JStr(a.goal)
  {
  }

  lemma {:induction false} ToDictEntries10(a: Agent)
    ensures var d := ToDict(a);
      && KeyBackstory in d && d[KeyBackstory] == JStr(a.backstory)
  {
  }

  lemma {:induction false} ToDictEntries11(a: Agent)
    ensures var d := ToDict(a);
      && KeyCreatedAt in d && d[KeyCreatedAt] == StrOpt(a.createdAt)
      && KeyUpdatedAt in d && d[KeyUpdatedAt] == StrOpt(a.updatedAt)
  {
  }

  lemma {:induction false} ToDictEntries12(a: Agent)
    ensures var d := ToDict(a);
      && KeyUserId in d && d[KeyUserId] == StrOpt(a.userId)
      && KeyWorkflows in d && d[KeyWorkflows] == StrOpt(a.workflows)
  {
  }

  lemma {:induction false} ToDictEntries13(a: Agent)
    ensures var d := ToDict(a);
      && KeyType in d && d[KeyType] == StrOpt(a.agentType)
      && KeyModels in d && d[KeyModels] == DictListOpt(a.models)
  {
  }

  lemma {:induction false} ToDictEntries14(a: Agent)
    ensures var d := ToDict(a);
      && KeyVerbose in d && d[KeyVerbose] == BoolOpt(a.verbose)
      && KeyAllowDelegation in d && d[KeyAllowDelegation] == BoolOpt(a.allowDelegation)
  {
  }

  lemma {:induction false} ToDictEntries15(a: Agent)
    ensures var d := ToDict(a);
      && KeyNewDescription in d && d[KeyNewDescription] == StrOpt(a.newDescription)
      && KeyTimestamp in d && d[KeyTimestamp] == StrOpt(a.timestamp)
  {
  }

  lemma {:induction false} ToDictEntries16(a: Agent)
    ensures var d := ToDict(a);
      && KeyIsTerminationMsg in d && d[KeyIsTerminationMsg] == BoolOpt(a.isTerminationMsg)
      && KeyCodeExecutionConfig in d && d[KeyCodeExecutionConfig] == DictOpt(a.codeExecutionConfig)
      && KeyLlm in d && d[KeyLlm] == StrOpt(a.llm)
  {
  }

  lemma {:induction false} ToDictEntries17(a: Agent)
    ensures var d := ToDict(a);
      && KeyFunctionCallingLlm in d && d[KeyFunctionCallingLlm] == StrOpt(a.functionCallingLlm)
      && KeyMaxIter in d && d[KeyMaxIter] == IntOpt(a.maxIter)
      && KeyMaxRpm in d && d[KeyMaxRpm] == IntOpt(a.maxRpm)
  {
  }

  lemma {:induction false} ToDictEntries18(a: Agent)
    ensures var d := ToDict(a);
      && KeyMaxExecutionTime in d && d[KeyMaxExecutionTime] == IntOpt(a.maxExecutionTime)
      && KeyStepCallback in d && d[KeyStepCallback] == CallableOpt(a.stepCallback)
      && KeyCache in d && d[KeyCache] == BoolOpt(a.cache)
  {
  }

  /** `d` holds the entries of `to_dict(a)`. */
  predicate HoldsEntries(d: Dict, a: Agent)
  {
      && KeyId in d && d[KeyId] == IntOpt(a.id)
      && KeyName in d && d[KeyName] == JStr(a.name)
      && KeyDescription in d && d[KeyDescription] == JStr(a.description)
      && KeyTools in d && d[KeyTools] == ToolDicts(a.tools)
      && KeyProvider in d && d[KeyProvider] == StrOpt(a.provider)
      && KeyModel in d && d[KeyModel] == StrOpt(a.model)
      && KeyConfig in d && d[KeyConfig] == JObj(a.config)
      && KeyRole in d && d[KeyRole] == JStr(a.role)
      && KeyGoal in d && d[KeyGoal] == JStr(a.goal)
      && KeyBackstory in d && d[KeyBackstory] == JStr(a.backstory)
      && KeyCreatedAt in d && d[KeyCreatedAt] == StrOpt(a.createdAt)
      && KeyUpdatedAt in d && d[KeyUpdatedAt] == StrOpt(a.updatedAt)
      && KeyUserId in d && d[KeyUserId] == StrOpt(a.userId)
      && KeyWorkflows in d && d[KeyWorkflows] == StrOpt(a.workflows)
      && KeyType in d && d[KeyType] == StrOpt(a.agentType)
      && KeyModels in d && d[KeyModels] == DictListOpt(a.models)
      && KeyVerbose in d && d[KeyVerbose] == BoolOpt(a.verbose)
      && KeyAllowDelegation in d && d[KeyAllowDelegation] == BoolOpt(a.allowDelegation)
      && KeyNewDescription in d && d[KeyNewDescription] == StrOpt(a.newDescription)
      && KeyTimestamp in d && d[KeyTimestamp] == StrOpt(a.timestamp)
      && KeyIsTerminationMsg in d && d[KeyIsTerminationMsg] == BoolOpt(a.isTerminationMsg)
      && KeyCodeExecutionConfig in d && d[KeyCodeExecutionConfig] == DictOpt(a.codeExecutionConfig)
      && KeyLlm in d && d[KeyLlm] == StrOpt(a.llm)
      && KeyFunctionCallingLlm in d && d[KeyFunctionCallingLlm] == StrOpt(a.functionCallingLlm)
      && KeyMaxIter in d && d[KeyMaxIter] == IntOpt(a.maxIter)
      && KeyMaxRpm in d && d[KeyMaxRpm] == IntOpt(a.maxRpm)
      && KeyMaxExecutionTime in d && d[KeyMaxExecutionTime] == IntOpt(a.maxExecutionTime)
      && KeyStepCallback in d && d[KeyStepCallback] == CallableOpt(a.stepCallback)
      && KeyCache in d && d[KeyCache] == BoolOpt(a.cache)
  }

  lemma {:induction false} ToDictHoldsEntries(a: Agent)
    ensures HoldsEntries(ToDict(a), a)
  {
    ToDictEntries1(a);
    ToDictEntries2(a);
    ToDictEntries3(a);
    ToDictEntries4(a);
    ToDictEntries5(a);
    ToDictEntries6(a);
    ToDictEntries7(a);
    ToDictEntries8(a);
    ToDictEntries9(a);
    ToDictEntries10(a);
    ToDictEntries11(a);
    ToDictEntries12(a);
    ToDictEntries13(a);
    ToDictEntries14(a);
    ToDictEntries15(a);
    ToDictEntries16(a);
    ToDictEntries17(a);
    ToDictEntries18(a);
  }

  /** Any dictionary with those entries has the annotated types and is
      read without error. */
  lemma {:induction false} EntriesTyped(d: Dict, a: Agent)
    requires Constructed(a) && HoldsEntries(d, a)
    ensures AgentDictTyped(d)
  {
    EntriesTyped1(d, a);
    EntriesTyped2(d, a);
    EntriesTyped3(d, a);
  }

  lemma {:induction false} EntriesTyped1(d: Dict, a: Agent)
    requires Constructed(a) && HoldsEntries(d, a)
    ensures TypedPart1(d)
  {
    ToolDictsRoundTrip(a.tools);
  }

  lemma {:induction false} EntriesTyped2(d: Dict, a: Agent)
    requires HoldsEntries(d, a)
    ensures TypedPart2(d)
  {
    if a.models.Some? {
      DictListRoundTrip(a.models.value);
    }
  }

  lemma {:induction false} EntriesTyped3(d: Dict, a: Agent)
    requires HoldsEntries(d, a)
    ensures TypedPart3(d)
  {
  }

  lemma {:induction false} EntriesRead(d: Dict, a: Agent)
    requires Constructed(a) && HoldsEntries(d, a) && AgentDictTyped(d)
    ensures FromDict(d).Ok?
  {
    ToolDictsRoundTrip(a.tools);
  }

  lemma {:induction false} EntriesRead1(d: Dict, a: Agent)
    requires Constructed(a) && HoldsEntries(d, a) && AgentDictTyped(d) && FromDict(d).Ok?
    ensures var v := FromDict(d).value;
      v.tools == WithoutCallables(a.tools)
  {
    ToolDictsRoundTrip(a.tools);
  }

  lemma {:induction false} EntriesRead2(d: Dict, a: Agent)
    requires Constructed(a) && HoldsEntries(d, a) && AgentDictTyped(d) && FromDict(d).Ok?
    ensures var v := FromDict(d).value;
      v.id == a.id && v.name == a.name && v.description == a.description && v.config == a.config
  {
  }

  lemma {:induction false} EntriesRead3(d: Dict, a: Agent)
    requires Constructed(a) && HoldsEntries(d, a) && AgentDictTyped(d) && FromDict(d).Ok?
    ensures var v := FromDict(d).value;
      v.role == a.role && v.goal == a.goal && v.backstory == a.backstory && v.provider == a.provider
  {
  }

  lemma {:induction false} EntriesRead4(d: Dict, a: Agent)
    requires Constructed(a) && HoldsEntries(d, a) && AgentDictTyped(d) && FromDict(d).Ok?
    ensures var v := FromDict(d).value;
      v.model == a.model && v.createdAt == a.createdAt && v.updatedAt == a.updatedAt && v.userId == a.userId
  {
  }

  lemma {:induction false} EntriesRead5(d: Dict, a: Agent)
    requires Constructed(a) && HoldsEntries(d, a) && AgentDictTyped(d) && FromDict(d).Ok?
    ensures var v := FromDict(d).value;
      v.workflows == a.workflows && v.agentType == a.agentType && v.models == a.models && v.verbose == a.verbose
  {
    if a.models.Some? {
      DictListRoundTrip(a.models.value);
    }
  }

  lemma {:induction false} EntriesRead6(d: Dict, a: Agent)
    requires Constructed(a) && HoldsEntries(d, a) && AgentDictTyped(d) && FromDict(d).Ok?
    ensures var v := FromDict(d).value;
      v.allowDelegation == a.allowDelegation && v.newDescription == a.newDescription && v.timestamp == a.timestamp
  {
  }

  lemma {:induction false} EntriesRead7(d: Dict, a: Agent)
    requires Constructed(a) && HoldsEntries(d, a) && AgentDictTyped(d) && FromDict(d).Ok?
    ensures var v := FromDict(d).value;
      v.isTerminationMsg == a.isTerminationMsg && v.codeExecutionConfig == a.codeExecutionConfig && v.llm == a.llm
  {
  }

  lemma {:induction false} EntriesRead8(d: Dict, a: Agent)
    requires Constructed(a) && HoldsEntries(d, a) && AgentDictTyped(d) && FromDict(d).Ok?
    ensures var v := FromDict(d).value;
      v.functionCallingLlm == a.functionCallingLlm && v.maxIter == a.maxIter && v.maxRpm == a.maxRpm
  {
  }

  lemma {:induction false} EntriesRead9(d: Dict, a: Agent)
    requires Constructed(a) && HoldsEntries(d, a) && AgentDictTyped(d) && FromDict(d).Ok?
    ensures var v := FromDict(d).value;
      v.maxExecutionTime == a.maxExecutionTime && v.stepCallback == a.stepCallback && v.cache == a.cache
  {
  }

  /** Any dictionary with those entries reads back as `a`, without its
      tools' functions. */
  lemma {:induction false} FromEntries(d: Dict, a: Agent)
    requires Constructed(a) && HoldsEntries(d, a)
    ensures AgentDictTyped(d)
    ensures FromDict(d) == Ok(a.(tools := WithoutCallables(a.tools)))
  {
    EntriesTyped(d, a);
    EntriesRead(d, a);
    EntriesRead1(d, a);
    EntriesRead2(d, a);
    EntriesRead3(d, a);
    EntriesRead4(d, a);
    EntriesRead5(d, a);
    EntriesRead6(d, a);
    EntriesRead7(d, a);
    EntriesRead8(d, a);
    EntriesRead9(d, a);
  }

  /** `from_dict(to_dict(a))` is `a` with its tools' functions dropped. */
  lemma {:induction false} RoundTrip(a: Agent)
    requires Constructed(a)
    ensures AgentDictTyped(ToDict(a))
    ensures FromDict(ToDict(a)) == Ok(a.(tools := WithoutCallables(a.tools)))
  {
    ToDictHoldsEntries(a);
    FromEntries(ToDict(a), a);
  }

  // ---------------------------------------------------------------------
  // Attribute access: `get`, `[]` and `in`
  // ---------------------------------------------------------------------

  /** The names of the attributes the constructor sets. */
  const AgentKeys: set<string> := {KeyId, KeyName, KeyDescription, KeyTools, KeyProvider, KeyModel,
    KeyConfig, KeyRole, KeyGoal, KeyBackstory, KeyCreatedAt, KeyUpdatedAt, KeyUserId, KeyWorkflows,
    KeyType, KeyModels, KeyVerbose, KeyAllowDelegation, KeyNewDescription, KeyTimestamp,
    KeyIsTerminationMsg, KeyCodeExecutionConfig, KeyLlm, KeyFunctionCallingLlm, KeyMaxIter, KeyMaxRpm,
    KeyMaxExecutionTime, KeyStepCallback, KeyCache}

  /** The attribute named `key`, in dictionary form (tools as their
      dictionaries), or None when the agent has no such attribute. */
  function Attribute(a: Agent, key: string): (r: Option<Json>)
    ensures r.Some? <==> key in ToDict(a)
  {
    var d := ToDict(a);
    if key in d then Some(d[key]) else None
  }

  /** `a.get(key, default)`. */
  function GetAttr(a: Agent, key: string, default: Json): (r: Json)
    ensures Attribute(a, key).None? ==> r == default
    ensures Attribute(a, key).Some? ==> r == Attribute(a, key).value
  {
    var v := Attribute(a, key);
    if v.Some? then v.value else default
  }

  /** `a[key]`: AttributeError for a missing attribute. */
  function GetItem(a: Agent, key: string): (r: Result<Json, string>)
    ensures r.Ok? <==> Attribute(a, key).Some?
    ensures r.Ok? ==> r.value == GetAttr(a, key, JNull)
  {
    var v := Attribute(a, key);
    if v.Some? then Ok(v.value)
    else Err("AttributeError: 'AgentBaseModel' object has no attribute '" + key + "'")
  }

  /** `key in a`. */
  predicate HasAttr(a: Agent, key: string)
  {
    Attribute(a, key).Some?
  }

  /** The attribute names are exactly the keys of the dictionary form. */
  lemma {:induction false} ToDictKeys(a: Agent)
    ensures ToDict(a).Keys == AgentKeys
  {
  }

  /** `get` returns the default exactly for a name that is not an attribute. */
  lemma {:induction false} GetDefaultIffMissing(a: Agent, key: string, default: Json)
    ensures HasAttr(a, key) <==> key in AgentKeys
    ensures key !in AgentKeys ==> GetAttr(a, key, default) == default
  {
    ToDictKeys(a);
  }

  /** Looking up an attribute by name gives its value. */
  lemma {:induction false} GetAttrName(a: Agent, default: Json)
    ensures GetAttr(a, KeyName, default) == JStr(a.name)
    ensures GetItem(a, KeyMaxIter) == Ok(IntOpt(a.maxIter))
  {
    ToDictEntries2(a);
    ToDictEntries17(a);
  }
}
