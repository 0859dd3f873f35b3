/** AutoGroq's `ProjectBaseModel` (AutoGroq/AutoGroq/models/project_base_model.py):
    a project record with defaults filled in by its constructor, a list of
    deliverable dictionaries updated in place, and its dictionary form.

    The record's value is `Project`; the object whose methods update its
    attributes is the class `ProjectBaseModel`. */
module ProjectModel {
  import opened Base
  import opened PyJson

  datatype Project = Project(
    id: int,
    reEngineeredPrompt: string,
    deliverables: seq<Dict>,
    createdAt: string,
    updatedAt: Option<string>,
    userId: string,
    name: string,
    description: Option<string>,
    status: string,
    dueDate: Option<string>,
    priority: Option<string>,
    tags: seq<string>,
    attachments: seq<string>,
    notes: Option<string>,
    collaborators: seq<string>,
    tools: seq<Dict>,
    workflows: seq<Dict>)

  /** The constructor's arguments, None where the caller passed None. */
  datatype ProjectArgs = ProjectArgs(
    reEngineeredPrompt: string,
    deliverables: Option<seq<Dict>>,
    id: Option<int>,
    createdAt: Option<string>,
    updatedAt: Option<string>,
    userId: Option<string>,
    name: Option<string>,
    description: Option<string>,
    status: Option<string>,
    dueDate: Option<string>,
    priority: Option<string>,
    tags: Option<seq<string>>,
    attachments: Option<seq<string>>,
    notes: Option<string>,
    collaborators: Option<seq<string>>,
    tools: Option<seq<Dict>>,
    workflows: Option<seq<Dict>>)

  // `x or default` for the argument types: None and the empty value are falsy.

  function IntOr(o: Option<int>, default: int): (r: int)
    ensures (o.None? || o.value == 0) ==> r == default
    ensures o.Some? && o.value != 0 ==> r == o.value
  {
    if o.Some? && o.value != 0 then o.value else default
  }

  function StrOr(o: Option<string>, default: string): (r: string)
    ensures (o.None? || o.value == "") ==> r == default
    ensures o.Some? && o.value != "" ==> r == o.value
  {
    if o.Some? && o.value != "" then o.value else default
  }

  function ListOr<T>(o: Option<seq<T>>): (r: seq<T>)
    ensures o.Some? ==> r == o.value
    ensures o.None? ==> r == []
  {
    if o.Some? then o.value else []
  }

  /** `ProjectBaseModel(...)`, with `now` the current time as ISO text:
      id becomes 1, user_id "user", name "project" and status "not started"
      when falsy, created_at the current time, and every list []. */
  function NewProject(args: ProjectArgs, now: string): (p: Project)
    ensures p.id == (if args.id.Some? && args.id.value != 0 then args.id.value else 1)
    ensures p.userId == (if args.userId.Some? && args.userId.value != "" then args.userId.value else "user")
    ensures p.name == (if args.name.Some? && args.name.value != "" then args.name.value else "project")
    ensures p.status == (if args.status.Some? && args.status.value != "" then args.status.value else "not started")
    ensures p.createdAt == (if args.createdAt.Some? && args.createdAt.value != "" then args.createdAt.value else now)
    ensures p.deliverables == (if args.deliverables.Some? then args.deliverables.value else [])
    ensures p.tags == (if args.tags.Some? then args.tags.value else [])
    ensures p.attachments == (if args.attachments.Some? then args.attachments.value else [])
    ensures p.collaborators == (if args.collaborators.Some? then args.collaborators.value else [])
    ensures p.tools == (if args.tools.Some? then args.tools.value else [])
    ensures p.workflows == (if args.workflows.Some? then args.workflows.value else [])
    ensures p.description == args.description && p.reEngineeredPrompt == args.reEngineeredPrompt
    ensures p.updatedAt == args.updatedAt && p.dueDate == args.dueDate
    ensures p.priority == args.priority && p.notes == args.notes
  {
    Project(
      IntOr(args.id, 1),
      args.reEngineeredPrompt,
      ListOr(args.deliverables),
      StrOr(args.createdAt, now),
      args.updatedAt,
      StrOr(args.userId, "user"),
      StrOr(args.name, "project"),
      args.description,
      StrOr(args.status, "not started"),
      args.dueDate,
      args.priority,
      ListOr(args.tags),
      ListOr(args.attachments),
      args.notes,
      ListOr(args.collaborators),
      ListOr(args.tools),
      ListOr(args.workflows))
  }

  /** A record the constructor can produce: no defaulted attribute is falsy. */
  predicate Normalised(p: Project)
  {
    p.id != 0 && p.createdAt != "" && p.userId != "" && p.name != "" && p.status != ""
  }

  lemma {:induction false} NewProjectNormalised(args: ProjectArgs, now: string)
    requires now != ""
    ensures Normalised(NewProject(args, now))
  {
  }

  // ---------------------------------------------------------------------
  // Deliverables
  // ---------------------------------------------------------------------

  const KeyText: string := "text"
  const KeyDone: string := "done"

  /** The entry `add_deliverable` appends. */
  function NewDeliverable(text: string): (d: Dict)
    ensures d.Keys == {KeyText, KeyDone}
    ensures d[KeyText] == JStr(text) && d[KeyDone] == JBool(false)
  {
    map[KeyText := JStr(text), KeyDone := JBool(false)]
  }

  /** `deliverables[index]["done"] = flag` when the index is in range;
      otherwise the list is unchanged. */
  function SetDone(ds: seq<Dict>, index: int, flag: bool): (r: seq<Dict>)
    ensures |r| == |ds|
    ensures forall i :: 0 <= i < |ds| && i != index ==> r[i] == ds[i]
    ensures 0 <= index < |ds| ==> r[index] == ds[index][KeyDone := JBool(flag)]
    ensures !(0 <= index < |ds|) ==> r == ds
  {
    if 0 <= index < |ds| then ds[index := ds[index][KeyDone := JBool(flag)]] else ds
  }

  /** A deliverable as the project creates it: a text and a done flag. */
  predicate DeliverableShaped(d: Dict)
  {
    KeyText in d && d[KeyText].JStr? && KeyDone in d && d[KeyDone].JBool?
  }

  predicate IsDone(ds: seq<Dict>, index: int)
  {
    0 <= index < |ds| && KeyDone in ds[index] && ds[index][KeyDone] == JBool(true)
  }

  /** Setting a flag keeps every deliverable shaped, keeps the text, and
      leaves the flag readable back. */
  lemma {:induction false} SetDoneKeepsShape(ds: seq<Dict>, index: int, flag: bool)
    requires forall i :: 0 <= i < |ds| ==> DeliverableShaped(ds[i])
    ensures forall i :: 0 <= i < |ds| ==>
      DeliverableShaped(SetDone(ds, index, flag)[i]) && SetDone(ds, index, flag)[i][KeyText] == ds[i][KeyText]
    ensures 0 <= index < |ds| ==> (IsDone(SetDone(ds, index, flag), index) <==> flag)
  {
    if 0 <= index < |ds| {
      assert KeyText != KeyDone;
    }
  }

  /** Marking done and then undone leaves a shaped deliverable as an
      undone one: the last write wins. */
  lemma {:induction false} SetDoneLastWins(ds: seq<Dict>, index: int, first: bool, second: bool)
    ensures SetDone(SetDone(ds, index, first), index, second) == SetDone(ds, index, second)
  {
    if 0 <= index < |ds| {
      assert ds[index][KeyDone := JBool(first)][KeyDone := JBool(second)] == ds[index][KeyDone := JBool(second)];
    }
  }

  // ---------------------------------------------------------------------
  // Dictionary form
  // ---------------------------------------------------------------------

  const KeyId: string := "id"
  const KeyReEngineeredPrompt: string := "re_engineered_prompt"
  const KeyDeliverables: string := "deliverables"
  const KeyCreatedAt: string := "created_at"
  const KeyUpdatedAt: string := "updated_at"
  const KeyUserId: string := "user_id"
  const KeyName: string := "name"
  const KeyDescription: string := "description"
  const KeyStatus: string := "status"
  const KeyDueDate: string := "due_date"
  const KeyPriority: string := "priority"
  const KeyTags: string := "tags"
  const KeyAttachments: string := "attachments"
  const KeyNotes: string := "notes"
  const KeyCollaborators: string := "collaborators"
  const KeyTools: string := "tools"
  const KeyWorkflows: string := "workflows"

  /** to_dict: every attribute. */
  function ToDict(p: Project): Dict
  {
    map[
      KeyId := JInt(p.id),
      KeyReEngineeredPrompt := JStr(p.reEngineeredPrompt),
      KeyDeliverables := DictList(p.deliverables),
      KeyCreatedAt := JStr(p.createdAt),
      KeyUpdatedAt := StrOpt(p.updatedAt),
      KeyUserId := JStr(p.userId),
      KeyName := JStr(p.name),
      KeyDescription := StrOpt(p.description),
      KeyStatus := JStr(p.status),
      KeyDueDate := StrOpt(p.dueDate),
      KeyPriority := StrOpt(p.priority),
      KeyTags := StrList(p.tags),
      KeyAttachments := StrList(p.attachments),
      KeyNotes := StrOpt(p.notes),
      KeyCollaborators := StrList(p.collaborators),
      KeyTools := DictList(p.tools),
      KeyWorkflows := DictList(p.workflows)]
  }

  predicate StrOptAt(data: Dict, key: string)
  {
    key in data ==> IsStrOpt(data[key])
  }

  predicate StrListOptAt(data: Dict, key: string)
  {
    key in data ==> data[key].JNull? || IsStrList(data[key])
  }

  /** A dictionary whose values have the constructor's annotated types. */
  predicate ProjectDictTyped(data: Dict)
  {
    && (KeyId in data ==> IsIntOpt(data[KeyId]))
    && (KeyReEngineeredPrompt in data ==> data[KeyReEngineeredPrompt].JStr?)
    && (KeyDeliverables in data ==> data[KeyDeliverables].JNull? || IsDictList(data[KeyDeliverables]))
    && StrOptAt(data, KeyCreatedAt) && StrOptAt(data, KeyUpdatedAt) && StrOptAt(data, KeyUserId)
    && StrOptAt(data, KeyName) && StrOptAt(data, KeyDescription) && StrOptAt(data, KeyStatus)
    && StrOptAt(data, KeyDueDate) && StrOptAt(data, KeyPriority) && StrOptAt(data, KeyNotes)
    && StrListOptAt(data, KeyTags) && StrListOptAt(data, KeyAttachments) && StrListOptAt(data, KeyCollaborators)
  }

  function StrListAt(data: Dict, key: string): Option<seq<string>>
    requires StrListOptAt(data, key)
  {
    if key in data then AsStrListOpt(data[key]) else None
  }

  /** The arguments from_dict passes: every key read with `get`, the
      prompt defaulting to "" and deliverables to []; tools and workflows
      are not read. */
  function ArgsOf(data: Dict): (args: ProjectArgs)
    requires ProjectDictTyped(data)
    ensures args.tools.None? && args.workflows.None?
    ensures KeyReEngineeredPrompt !in data ==> args.reEngineeredPrompt == ""
    ensures KeyDeliverables !in data ==> args.deliverables == Some([])
  {
    ProjectArgs(
      if KeyReEngineeredPrompt in data then data[KeyReEngineeredPrompt].s else "",
      AsDictListOpt(Get(data, KeyDeliverables, JList([]))),
      AsIntOpt(Get(data, KeyId, JNull)),
      AsStrOpt(Get(data, KeyCreatedAt, JNull)),
      AsStrOpt(Get(data, KeyUpdatedAt, JNull)),
      AsStrOpt(Get(data, KeyUserId, JNull)),
      AsStrOpt(Get(data, KeyName, JNull)),
      AsStrOpt(Get(data, KeyDescription, JNull)),
      AsStrOpt(Get(data, KeyStatus, JNull)),
      AsStrOpt(Get(data, KeyDueDate, JNull)),
      AsStrOpt(Get(data, KeyPriority, JNull)),
      StrListAt(data, KeyTags),
      StrListAt(data, KeyAttachments),
      AsStrOpt(Get(data, KeyNotes, JNull)),
      StrListAt(data, KeyCollaborators),
      None,
      None)
  }

  /** from_dict: the constructor applied to the dictionary's values, so
      every default applies again; tools and workflows come back empty. */
  function FromDict(data: Dict, now: string): (p: Project)
    requires ProjectDictTyped(data)
    ensures p.tools == [] && p.workflows == []
    ensures KeyUserId !in data ==> p.userId == "user"
    ensures KeyStatus !in data ==> p.status == "not started"
  {
    NewProject(ArgsOf(data), now)
  }

  /** `d` holds the entries of `to_dict(p)`. */
  predicate HoldsEntries(d: Dict, p: Project)
  {
    && KeyId in d && d[KeyId] == JInt(p.id)
    && KeyReEngineeredPrompt in d && d[KeyReEngineeredPrompt] == JStr(p.reEngineeredPrompt)
    && KeyDeliverables in d && d[KeyDeliverables] == DictList(p.deliverables)
    && KeyCreatedAt in d && d[KeyCreatedAt] == JStr(p.createdAt)
    && KeyUpdatedAt in d && d[KeyUpdatedAt] == StrOpt(p.updatedAt)
    && KeyUserId in d && d[KeyUserId] == JStr(p.userId)
    && KeyName in d && d[KeyName] == JStr(p.name)
    && KeyDescription in d && d[KeyDescription] == StrOpt(p.description)
    && KeyStatus in d && d[KeyStatus] == JStr(p.status)
    && KeyDueDate in d && d[KeyDueDate] == StrOpt(p.dueDate)
    && KeyPriority in d && d[KeyPriority] == StrOpt(p.priority)
    && KeyTags in d && d[KeyTags] == StrList(p.tags)
    && KeyAttachments in d && d[KeyAttachments] == StrList(p.attachments)
    && KeyNotes in d && d[KeyNotes] == StrOpt(p.notes)
    && KeyCollaborators in d && d[KeyCollaborators] == StrList(p.collaborators)
  }

  lemma {:induction false} ToDictEntries1(p: Project)
    ensures var d := ToDict(p);
      && KeyId in d && d[KeyId] == JInt(p.id)
      && KeyReEngineeredPrompt in d && d[KeyReEngineeredPrompt] == JStr(p.reEngineeredPrompt)
      && KeyDeliverables in d && d[KeyDeliverables] == DictList(p.deliverables)
  {
  }

  lemma {:induction false} ToDictEntries2(p: Project)
    ensures var d := ToDict(p);
      && KeyCreatedAt in d && d[KeyCreatedAt] == JStr(p.createdAt)
      && KeyUpdatedAt in d && d[KeyUpdatedAt] == StrOpt(p.updatedAt)
      && KeyUserId in d && d[KeyUserId] == JStr(p.userId)
  {
  }

  lemma {:induction false} ToDictEntries3(p: Project)
    ensures var d := ToDict(p);
      && KeyName in d && d[KeyName] == JStr(p.name)
      && KeyDescription in d && d[KeyDescription] == StrOpt(p.description)
      && KeyStatus in d && d[KeyStatus] == JStr(p.status)
  {
  }

  lemma {:induction false} ToDictEntries4(p: Project)
    ensures var d := ToDict(p);
      && KeyDueDate in d && d[KeyDueDate] == StrOpt(p.dueDate)
      && KeyPriority in d && d[KeyPriority] == StrOpt(p.priority)
      && KeyTags in d && d[KeyTags] == StrList(p.tags)
  {
  }

  lemma {:induction false} ToDictEntries5(p: Project)
    ensures var d := ToDict(p);
      && KeyAttachments in d && d[KeyAttachments] == StrList(p.attachments)
      && KeyNotes in d && d[KeyNotes] == StrOpt(p.notes)
      && KeyCollaborators in d && d[KeyCollaborators] == StrList(p.collaborators)
  {
  }

  /** Any dictionary with those entries reads back as `p`, without its
      tools and workflows. */
  lemma {:induction false} FromEntries(d: Dict, p: Project, now: string)
    requires Normalised(p) && HoldsEntries(d, p)
    ensures ProjectDictTyped(d)
    ensures FromDict(d, now) == p.(tools := [], workflows := [])
  {
    DictListRoundTrip(p.deliverables);
    StrListRoundTrip(p.tags);
    StrListRoundTrip(p.attachments);
    StrListRoundTrip(p.collaborators);
  }

  /** `from_dict(to_dict(p))` keeps every attribute but tools and
      workflows, which come back empty. */
  lemma {:induction false} RoundTrip(p: Project, now: string)
    requires Normalised(p)
    ensures ProjectDictTyped(ToDict(p))
    ensures FromDict(ToDict(p), now) == p.(tools := [], workflows := [])
  {
    ToDictEntries1(p);
    ToDictEntries2(p);
    ToDictEntries3(p);
    ToDictEntries4(p);
    ToDictEntries5(p);
    FromEntries(ToDict(p), p, now);
  }

  /** A record with tools or workflows does not survive the round trip. */
  lemma {:induction false} RoundTripDropsTools(p: Project, now: string)
    requires Normalised(p) && (p.tools != [] || p.workflows != [])
    ensures ProjectDictTyped(ToDict(p)) && FromDict(ToDict(p), now) != p
  {
    RoundTrip(p, now);
  }

  // ---------------------------------------------------------------------
  // The object
  // ---------------------------------------------------------------------

  class ProjectBaseModel {
    var id: int
    var reEngineeredPrompt: string
    var deliverables: seq<Dict>
    var createdAt: string
    var updatedAt: Option<string>
    var userId: string
    var name: string
    var description: Option<string>
    var status: string
    var dueDate: Option<string>
    var priority: Option<string>
    var tags: seq<string>
    var attachments: seq<string>
    var notes: Option<string>
    var collaborators: seq<string>
    var tools: seq<Dict>
    var workflows: seq<Dict>

    /** The attributes as a record. */
    function Record(): Project
      reads this
    {
      Project(id, reEngineeredPrompt, deliverables, createdAt, updatedAt, userId, name, description,
              status, dueDate, priority, tags, attachments, notes, collaborators, tools, workflows)
    }

    constructor (args: ProjectArgs, now: string)
      ensures Record() == NewProject(args, now)
    {
      var p := NewProject(args, now);
      id, reEngineeredPrompt, deliverables, createdAt, updatedAt := p.id, p.reEngineeredPrompt, p.deliverables, p.createdAt, p.updatedAt;
      userId, name, description, status, dueDate := p.userId, p.name, p.description, p.status, p.dueDate;
      priority, tags, attachments, notes := p.priority, p.tags, p.attachments, p.notes;
      collaborators, tools, workflows := p.collaborators, p.tools, p.workflows;
    }

    /** from_dict. */
    constructor FromDictionary(data: Dict, now: string)
      requires ProjectDictTyped(data)
      ensures Record() == FromDict(data, now)
    {
      var p := FromDict(data, now);
      id, reEngineeredPrompt, deliverables, createdAt, updatedAt := p.id, p.reEngineeredPrompt, p.deliverables, p.createdAt, p.updatedAt;
      userId, name, description, status, dueDate := p.userId, p.name, p.description, p.status, p.dueDate;
      priority, tags, attachments, notes := p.priority, p.tags, p.attachments, p.notes;
      collaborators, tools, workflows := p.collaborators, p.tools, p.workflows;
    }

    /** to_dict. */
    function AsDict(): Dict
      reads this
    {
      ToDict(Record())
    }

    method AddDeliverable(text: string)
      modifies this
      ensures Record() == old(Record()).(deliverables := old(deliverables) + [NewDeliverable(text)])
    {
      deliverables := deliverables + [NewDeliverable(text)];
    }

    method MarkDeliverableDone(index: int)
      modifies this
      ensures Record() == old(Record()).(deliverables := SetDone(old(deliverables), index, true))
      ensures 0 <= index < |deliverables| ==> IsDone(deliverables, index)
    {
      if 0 <= index < |deliverables| {
        deliverables := deliverables[index := deliverables[index][KeyDone := JBool(true)]];
      }
    }

    method MarkDeliverableUndone(index: int)
      modifies this
      ensures Record() == old(Record()).(deliverables := SetDone(old(deliverables), index, false))
      ensures !IsDone(deliverables, index)
    {
      if 0 <= index < |deliverables| {
        deliverables := deliverables[index := deliverables[index][KeyDone := JBool(false)]];
      }
    }

    method SetReEngineeredPrompt(prompt: string)
      modifies this
      ensures Record() == old(Record()).(reEngineeredPrompt := prompt)
    {
      reEngineeredPrompt := prompt;
    }
  }
}
