/** AutoGroq's workflow records (AutoGroq/AutoGroq/models/workflow_base_model.py):
    `Sender`, `Receiver` and `WorkflowBaseModel`, their dictionary forms and
    back. Agents go through the agent record's own dictionary form. */
module WorkflowModel {
  import opened Base
  import opened PyJson
  import AgentModel

  type Agent = AgentModel.Agent

  datatype Sender = Sender(senderType: string, config: Dict, timestamp: string, userId: string, tools: seq<Dict>)

  datatype Receiver = Receiver(
    receiverType: string,
    config: Dict,
    groupchatConfig: Dict,
    timestamp: string,
    userId: string,
    tools: seq<Dict>,
    agents: seq<Agent>)

  datatype Workflow = Workflow(
    id: Option<int>,
    name: string,
    description: string,
    agents: seq<Agent>,
    sender: Sender,
    receiver: Receiver,
    workflowType: string,
    userId: string,
    timestamp: string,
    summaryMethod: string,
    settings: Dict,
    groupchatConfig: Dict,
    createdAt: Option<string>,
    updatedAt: Option<string>)

  const KeyType: string := "type"
  const KeyConfig: string := "config"
  const KeyTimestamp: string := "timestamp"
  const KeyUserId: string := "user_id"
  const KeyTools: string := "tools"
  const KeyGroupchatConfig: string := "groupchat_config"
  const KeyAgents: string := "agents"
  const KeyId: string := "id"
  const KeyName: string := "name"
  const KeyDescription: string := "description"
  const KeySender: string := "sender"
  const KeyReceiver: string := "receiver"
  const KeySummaryMethod: string := "summary_method"
  const KeySettings: string := "settings"
  const KeyCreatedAt: string := "created_at"
  const KeyUpdatedAt: string := "updated_at"

  /** An agent as a from_dict of its to_dict rebuilds it: tools without
      their functions. */
  function Reloaded(a: Agent): Agent
  {
    a.(tools := AgentModel.WithoutCallables(a.tools))
  }

  function ReloadedAll(agents: seq<Agent>): seq<Agent>
  {
    MapSeq(Reloaded, agents)
  }

  // ---------------------------------------------------------------------
  // Agents lists
  // ---------------------------------------------------------------------

  /** `[agent.to_dict() for agent in agents]`. */
  function AgentDicts(agents: seq<Agent>): Json
  {
    JList(MapSeq(EncodeAgent, agents))
  }

  /** `agent.to_dict()` as a list element. */
  function EncodeAgent(a: Agent): Json
  {
    JObj(AgentModel.ToDict(a))
  }

  predicate AgentItem(j: Json)
  {
    j.JObj? && AgentModel.AgentDictTyped(j.fields)
  }

  predicate AgentDictsTyped(j: Json)
  {
    j.JList? && forall i :: 0 <= i < |j.items| ==> AgentItem(j.items[i])
  }

  /** `AgentBaseModel.from_dict(item)` on one list element. */
  function LoadAgent(item: Json): Result<Agent, string>
    requires AgentItem(item)
  {
    AgentModel.FromDict(item.fields)
  }

  /** `[AgentBaseModel.from_dict(agent) for agent in items]`: the first
      failure is raised. */
  function AgentsFromDicts(items: seq<Json>): Result<seq<Agent>, string>
    requires forall i :: 0 <= i < |items| ==> AgentItem(items[i])
  {
    MapAll(LoadAgent, items)
  }

  predicate AllConstructed(agents: seq<Agent>)
  {
    forall i :: 0 <= i < |agents| ==> AgentModel.Constructed(agents[i])
  }

  /** One agent survives its dictionary form, tools without their
      functions. */
  lemma {:induction false} LoadAgentRoundTrip(a: Agent)
    requires AgentModel.Constructed(a)
    ensures AgentItem(EncodeAgent(a))
    ensures LoadAgent(EncodeAgent(a)) == Ok(Reloaded(a))
  {
    AgentModel.RoundTrip(a);
  }

  /** The agents list survives its dictionary form, tools without their
      functions. */
  lemma {:induction false} AgentDictsRoundTrip(agents: seq<Agent>)
    requires AllConstructed(agents)
    ensures AgentDictsTyped(AgentDicts(agents))
    ensures AgentsFromDicts(AgentDicts(agents).items) == Ok(ReloadedAll(agents))
  {
    forall i | 0 <= i < |agents|
      ensures AgentItem(EncodeAgent(agents[i])) && LoadAgent(EncodeAgent(agents[i])) == Ok(Reloaded(agents[i]))
    {
      LoadAgentRoundTrip(agents[i]);
    }
    MapAllInverse(EncodeAgent, LoadAgent, Reloaded, agents);
  }

  /** `data.get("agents", [])` read back. */
  function AgentsAt(data: Dict): Result<seq<Agent>, string>
    requires KeyAgents in data ==> AgentDictsTyped(data[KeyAgents])
  {
    AgentsFromDicts(Get(data, KeyAgents, JList([])).items)
  }

  // ---------------------------------------------------------------------
  // Sender
  // ---------------------------------------------------------------------

  function SenderToDict(s: Sender): Dict
  {
    map[KeyType := JStr(s.senderType), KeyConfig := JObj(s.config), KeyTimestamp := JStr(s.timestamp),
        KeyUserId := JStr(s.userId), KeyTools := DictList(s.tools)]
  }

  predicate SenderDictTyped(data: Dict)
  {
    && (KeyType in data ==> data[KeyType].JStr?)
    && (KeyConfig in data ==> data[KeyConfig].JObj?)
    && (KeyTimestamp in data ==> data[KeyTimestamp].JStr?)
    && (KeyUserId in data ==> data[KeyUserId].JStr?)
    && (KeyTools in data ==> IsDictList(data[KeyTools]))
  }

  /** Sender.from_dict: every key is required, read in order. */
  function SenderFromDict(data: Dict): (r: Result<Sender, string>)
    requires SenderDictTyped(data)
    ensures r.Ok? <==> KeyType in data && KeyConfig in data && KeyTimestamp in data && KeyUserId in data && KeyTools in data
    ensures KeyType !in data ==> r == Err(KeyError(KeyType))
  {
    if KeyType !in data then Err(KeyError(KeyType))
    else if KeyConfig !in data then Err(KeyError(KeyConfig))
    else if KeyTimestamp !in data then Err(KeyError(KeyTimestamp))
    else if KeyUserId !in data then Err(KeyError(KeyUserId))
    else if KeyTools !in data then Err(KeyError(KeyTools))
    else Ok(Sender(data[KeyType].s, data[KeyConfig].fields, data[KeyTimestamp].s, data[KeyUserId].s,
                   AsDictList(data[KeyTools])))
  }

  lemma {:induction false} SenderRoundTrip(s: Sender)
    ensures SenderDictTyped(SenderToDict(s))
    ensures SenderFromDict(SenderToDict(s)) == Ok(s)
  {
    DictListRoundTrip(s.tools);
  }

  // ---------------------------------------------------------------------
  // Receiver
  // ---------------------------------------------------------------------

  function ReceiverToDict(r: Receiver): Dict
  {
    map[KeyType := JStr(r.receiverType), KeyConfig := JObj(r.config), KeyGroupchatConfig := JObj(r.groupchatConfig),
        KeyTimestamp := JStr(r.timestamp), KeyUserId := JStr(r.userId), KeyTools := DictList(r.tools),
        KeyAgents := AgentDicts(r.agents)]
  }

  predicate ReceiverDictTyped(data: Dict)
  {
    && (KeyType in data ==> data[KeyType].JStr?)
    && (KeyConfig in data ==> data[KeyConfig].JObj?)
    && (KeyGroupchatConfig in data ==> data[KeyGroupchatConfig].JObj?)
    && (KeyTimestamp in data ==> data[KeyTimestamp].JStr?)
    && (KeyUserId in data ==> data[KeyUserId].JStr?)
    && (KeyTools in data ==> IsDictList(data[KeyTools]))
    && (KeyAgents in data ==> AgentDictsTyped(data[KeyAgents]))
  }

  /** Receiver.from_dict: every key but agents is required; agents
      defaults to [] and each is read by the agent's from_dict. */
  function ReceiverFromDict(data: Dict): (r: Result<Receiver, string>)
    requires ReceiverDictTyped(data)
    ensures r.Ok? ==> (KeyType in data && KeyConfig in data && KeyGroupchatConfig in data
      && KeyTimestamp in data && KeyUserId in data && KeyTools in data)
    ensures r.Ok? && KeyAgents !in data ==> r.value.agents == []
    ensures KeyType !in data ==> r == Err(KeyError(KeyType))
  {
    if KeyType !in data then Err(KeyError(KeyType))
    else if KeyConfig !in data then Err(KeyError(KeyConfig))
    else if KeyGroupchatConfig !in data then Err(KeyError(KeyGroupchatConfig))
    else if KeyTimestamp !in data then Err(KeyError(KeyTimestamp))
    else if KeyUserId !in data then Err(KeyError(KeyUserId))
    else if KeyTools !in data then Err(KeyError(KeyTools))
    else
      var agents := AgentsAt(data);
      if agents.Err? then Err(agents.error)
      else Ok(Receiver(data[KeyType].s, data[KeyConfig].fields, data[KeyGroupchatConfig].fields,
                       data[KeyTimestamp].s, data[KeyUserId].s, AsDictList(data[KeyTools]), agents.value))
  }

  lemma {:induction false} ReceiverEntries(r: Receiver)
    ensures var d := ReceiverToDict(r);
      && KeyType in d && d[KeyType] == JStr(r.receiverType)
      && KeyConfig in d && d[KeyConfig] == JObj(r.config)
      && KeyGroupchatConfig in d && d[KeyGroupchatConfig] == JObj(r.groupchatConfig)
      && KeyTimestamp in d && d[KeyTimestamp] == JStr(r.timestamp)
      && KeyUserId in d && d[KeyUserId] == JStr(r.userId)
      && KeyTools in d && d[KeyTools] == DictList(r.tools)
      && KeyAgents in d && d[KeyAgents] == AgentDicts(r.agents)
  {
  }

  /** Receiver.from_dict(to_dict(r)) is r, its agents reloaded. */
  lemma {:induction false} ReceiverRoundTrip(r: Receiver)
    requires AllConstructed(r.agents)
    ensures ReceiverDictTyped(ReceiverToDict(r))
    ensures ReceiverFromDict(ReceiverToDict(r)) == Ok(r.(agents := ReloadedAll(r.agents)))
  {
    ReceiverEntries(r);
    DictListRoundTrip(r.tools);
    AgentDictsRoundTrip(r.agents);
  }

  // ---------------------------------------------------------------------
  // Workflow
  // ---------------------------------------------------------------------

  /** `WorkflowBaseModel(...)`: settings and groupchat_config default to {}
      when None or empty. */
  function NewWorkflow(id: Option<int>, name: string, description: string, agents: seq<Agent>,
                       sender: Sender, receiver: Receiver, workflowType: string, userId: string,
                       timestamp: string, summaryMethod: string, settings: Option<Dict>,
                       groupchatConfig: Option<Dict>, createdAt: Option<string>,
                       updatedAt: Option<string>): (w: Workflow)
    ensures settings.None? ==> w.settings == map[]
    ensures groupchatConfig.None? ==> w.groupchatConfig == map[]
    ensures settings.Some? ==> w.settings == settings.value
    ensures groupchatConfig.Some? ==> w.groupchatConfig == groupchatConfig.value
  {
    Workflow(id, name, description, agents, sender, receiver, workflowType, userId, timestamp, summaryMethod,
             if settings.Some? then settings.value else map[],
             if groupchatConfig.Some? then groupchatConfig.value else map[],
             createdAt, updatedAt)
  }

  function ToDict(w: Workflow): Dict
  {
    map[
      KeyId := IntOpt(w.id),
      KeyName := JStr(w.name),
      KeyDescription := JStr(w.description),
      KeyAgents := AgentDicts(w.agents),
      KeySender := JObj(SenderToDict(w.sender)),
      KeyReceiver := JObj(ReceiverToDict(w.receiver)),
      KeyType := JStr(w.workflowType),
      KeyUserId := JStr(w.userId),
      KeyTimestamp := JStr(w.timestamp),
      KeySummaryMethod := JStr(w.summaryMethod),
      KeySettings := JObj(w.settings),
      KeyGroupchatConfig := JObj(w.groupchatConfig),
      KeyCreatedAt := StrOpt(w.createdAt),
      KeyUpdatedAt := StrOpt(w.updatedAt)]
  }

  predicate WorkflowDictTyped(data: Dict)
  {
    NestedTyped(data) && ScalarsTyped(data)
  }

  /** The sender, receiver and agents entries have their record's shape. */
  predicate NestedTyped(data: Dict)
  {
    && (KeySender in data ==> data[KeySender].JObj? && SenderDictTyped(data[KeySender].fields))
    && (KeyReceiver in data ==> data[KeyReceiver].JObj? && ReceiverDictTyped(data[KeyReceiver].fields))
    && (KeyAgents in data ==> AgentDictsTyped(data[KeyAgents]))
  }

  predicate ScalarsTyped(data: Dict)
  {
    && (KeyId in data ==> IsIntOpt(data[KeyId]))
    && (KeyName in data ==> data[KeyName].JStr?)
    && (KeyDescription in data ==> data[KeyDescription].JStr?)
    && (KeyType in data ==> data[KeyType].JStr?)
    && (KeyUserId in data ==> data[KeyUserId].JStr?)
    && (KeyTimestamp in data ==> data[KeyTimestamp].JStr?)
    && (KeySummaryMethod in data ==> data[KeySummaryMethod].JStr?)
    && (KeySettings in data ==> data[KeySettings].JNull? || data[KeySettings].JObj?)
    && (KeyGroupchatConfig in data ==> data[KeyGroupchatConfig].JNull? || data[KeyGroupchatConfig].JObj?)
    && (KeyCreatedAt in data ==> IsStrOpt(data[KeyCreatedAt]))
    && (KeyUpdatedAt in data ==> IsStrOpt(data[KeyUpdatedAt]))
  }

  /** `data.get(key, {})` for an optional dictionary argument. */
  function DictAt(data: Dict, key: string): Option<Dict>
    requires key in data ==> data[key].JNull? || data[key].JObj?
  {
    if key !in data then Some(map[]) else if data[key].JObj? then Some(data[key].fields) else None
  }

  /** WorkflowBaseModel.from_dict: the sender, then the receiver, then the
      constructor's arguments in order. */
  function FromDict(data: Dict): (r: Result<Workflow, string>)
    requires WorkflowDictTyped(data)
    ensures r.Ok? ==> (KeySender in data && KeyReceiver in data && KeyName in data && KeyDescription in data
      && KeyType in data && KeyUserId in data && KeyTimestamp in data && KeySummaryMethod in data)
    ensures KeySender !in data ==> r == Err(KeyError(KeySender))
    ensures r.Ok? && KeySettings !in data ==> r.value.settings == map[]
  {
    if KeySender !in data then Err(KeyError(KeySender))
    else
      var sender := SenderFromDict(data[KeySender].fields);
      if sender.Err? then Err(sender.error)
      else if KeyReceiver !in data then Err(KeyError(KeyReceiver))
      else
        var receiver := ReceiverFromDict(data[KeyReceiver].fields);
        if receiver.Err? then Err(receiver.error)
        else if KeyName !in data then Err(KeyError(KeyName))
        else if KeyDescription !in data then Err(KeyError(KeyDescription))
        else
          var agents := AgentsAt(data);
          if agents.Err? then Err(agents.error)
          else if KeyType !in data then Err(KeyError(KeyType))
          else if KeyUserId !in data then Err(KeyError(KeyUserId))
          else if KeyTimestamp !in data then Err(KeyError(KeyTimestamp))
          else if KeySummaryMethod !in data then Err(KeyError(KeySummaryMethod))
          else Ok(NewWorkflow(
            AsIntOpt(Get(data, KeyId, JNull)), data[KeyName].s, data[KeyDescription].s, agents.value,
            sender.value, receiver.value, data[KeyType].s, data[KeyUserId].s, data[KeyTimestamp].s,
            data[KeySummaryMethod].s, DictAt(data, KeySettings), DictAt(data, KeyGroupchatConfig),
            AsStrOpt(Get(data, KeyCreatedAt, JNull)), AsStrOpt(Get(data, KeyUpdatedAt, JNull))))
  }

  /** `d` holds the entries of `to_dict(w)`. */
  predicate HoldsEntries(d: Dict, w: Workflow)
  {
    && KeyAgents in d && d[KeyAgents] == AgentDicts(w.agents)
    && KeySender in d && d[KeySender] == JObj(SenderToDict(w.sender))
    && KeyReceiver in d && d[KeyReceiver] == JObj(ReceiverToDict(w.receiver))
    && ScalarEntries(d, w)
  }

  /** `d` holds the entries of `to_dict(w)` that are plain values. */
  predicate ScalarEntries(d: Dict, w: Workflow)
  {
    && KeyId in d && d[KeyId] == IntOpt(w.id)
    && KeyName in d && d[KeyName] == JStr(w.name)
    && KeyDescription in d && d[KeyDescription] == JStr(w.description)
    && KeyType in d && d[KeyType] == JStr(w.workflowType)
    && KeyUserId in d && d[KeyUserId] == JStr(w.userId)
    && KeyTimestamp in d && d[KeyTimestamp] == JStr(w.timestamp)
    && KeySummaryMethod in d && d[KeySummaryMethod] == JStr(w.summaryMethod)
    && KeySettings in d && d[KeySettings] == JObj(w.settings)
    && KeyGroupchatConfig in d && d[KeyGroupchatConfig] == JObj(w.groupchatConfig)
    && KeyCreatedAt in d && d[KeyCreatedAt] == StrOpt(w.createdAt)
    && KeyUpdatedAt in d && d[KeyUpdatedAt] == StrOpt(w.updatedAt)
  }

  lemma {:induction false} ToDictEntries1(w: Workflow)
    ensures var d := ToDict(w);
      KeyId in d && d[KeyId] == IntOpt(w.id)
  {
  }

  lemma {:induction false} ToDictEntries6(w: Workflow)
    ensures var d := ToDict(w);
      && KeyName in d && d[KeyName] == JStr(w.name)
      && KeyDescription in d && d[KeyDescription] == JStr(w.description)
  {
  }

  lemma {:induction false} ToDictEntries2(w: Workflow)
    ensures var d := ToDict(w);
      && KeyAgents in d && d[KeyAgents] == AgentDicts(w.agents)
      && KeySender in d && d[KeySender] == JObj(SenderToDict(w.sender))
      && KeyReceiver in d && d[KeyReceiver] == JObj(ReceiverToDict(w.receiver))
  {
  }

  lemma {:induction false} ToDictEntries3(w: Workflow)
    ensures var d := ToDict(w);
      && KeyType in d && d[KeyType] == JStr(w.workflowType)
      && KeyUserId in d && d[KeyUserId] == JStr(w.userId)
      && KeyTimestamp in d && d[KeyTimestamp] == JStr(w.timestamp)
  {
  }

  lemma {:induction false} ToDictEntries4(w: Workflow)
    ensures var d := ToDict(w);
      && KeySummaryMethod in d && d[KeySummaryMethod] == JStr(w.summaryMethod)
      && KeySettings in d && d[KeySettings] == JObj(w.settings)
      && KeyGroupchatConfig in d && d[KeyGroupchatConfig] == JObj(w.groupchatConfig)
  {
  }

  lemma {:induction false} ToDictEntries5(w: Workflow)
    ensures var d := ToDict(w);
      && KeyCreatedAt in d && d[KeyCreatedAt] == StrOpt(w.createdAt)
      && KeyUpdatedAt in d && d[KeyUpdatedAt] == StrOpt(w.updatedAt)
  {
  }

  /** The workflow with every agent reloaded. */
  function ReloadedWorkflow(w: Workflow): Workflow
  {
    w.(agents := ReloadedAll(w.agents), receiver := w.receiver.(agents := ReloadedAll(w.receiver.agents)))
  }

  predicate WorkflowConstructed(w: Workflow)
  {
    AllConstructed(w.agents) && AllConstructed(w.receiver.agents)
  }

  lemma {:induction false} EntriesTyped(d: Dict, w: Workflow)
    requires WorkflowConstructed(w) && HoldsEntries(d, w)
    ensures WorkflowDictTyped(d)
  {
    NestedEntriesTyped(d, w);
  }

  lemma {:induction false} NestedEntriesTyped(d: Dict, w: Workflow)
    requires WorkflowConstructed(w)
    requires KeySender in d && d[KeySender] == JObj(SenderToDict(w.sender))
    requires KeyReceiver in d && d[KeyReceiver] == JObj(ReceiverToDict(w.receiver))
    requires KeyAgents in d && d[KeyAgents] == AgentDicts(w.agents)
    ensures NestedTyped(d)
  {
    SenderRoundTrip(w.sender);
    ReceiverRoundTrip(w.receiver);
    AgentDictsRoundTrip(w.agents);
  }

  lemma {:induction false} SenderEntryRead(d: Dict, s: Sender)
    requires KeySender in d && d[KeySender] == JObj(SenderToDict(s))
    ensures d[KeySender].JObj? && SenderDictTyped(d[KeySender].fields)
    ensures SenderFromDict(d[KeySender].fields) == Ok(s)
  {
    SenderRoundTrip(s);
  }

  lemma {:induction false} ReceiverEntryRead(d: Dict, r: Receiver)
    requires AllConstructed(r.agents)
    requires KeyReceiver in d && d[KeyReceiver] == JObj(ReceiverToDict(r))
    ensures d[KeyReceiver].JObj? && ReceiverDictTyped(d[KeyReceiver].fields)
    ensures ReceiverFromDict(d[KeyReceiver].fields) == Ok(r.(agents := ReloadedAll(r.agents)))
  {
    ReceiverRoundTrip(r);
  }

  lemma {:induction false} AgentsEntryRead(d: Dict, agents: seq<Agent>)
    requires AllConstructed(agents)
    requires KeyAgents in d && d[KeyAgents] == AgentDicts(agents)
    ensures AgentDictsTyped(d[KeyAgents])
    ensures AgentsAt(d) == Ok(ReloadedAll(agents))
  {
    AgentDictsRoundTrip(agents);
  }

  /** from_dict on a dictionary whose nested entries read back as `w`'s
      and whose plain entries are `w`'s. */
  lemma {:induction false} FromEntries(d: Dict, w: Workflow)
    requires WorkflowDictTyped(d) && ScalarEntries(d, w)
    requires KeySender in d && SenderFromDict(d[KeySender].fields) == Ok(w.sender)
    requires KeyReceiver in d && ReceiverFromDict(d[KeyReceiver].fields) == Ok(w.receiver)
    requires AgentsAt(d) == Ok(w.agents)
    ensures FromDict(d) == Ok(w)
  {
    assert DictAt(d, KeySettings) == Some(w.settings);
    assert DictAt(d, KeyGroupchatConfig) == Some(w.groupchatConfig);
  }

  /** `from_dict(to_dict(w))` keeps every field; agents come back with
      their tools' functions dropped. */
  lemma {:induction false} RoundTrip(w: Workflow)
    requires WorkflowConstructed(w)
    ensures WorkflowDictTyped(ToDict(w))
    ensures FromDict(ToDict(w)) == Ok(ReloadedWorkflow(w))
  {
    ToDictEntries1(w);
    ToDictEntries2(w);
    ToDictEntries3(w);
    ToDictEntries4(w);
    ToDictEntries5(w);
    ToDictEntries6(w);
    var d := ToDict(w);
    EntriesTyped(d, w);
    SenderEntryRead(d, w.sender);
    ReceiverEntryRead(d, w.receiver);
    AgentsEntryRead(d, w.agents);
    FromEntries(d, ReloadedWorkflow(w));
  }
}
