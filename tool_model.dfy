/** AutoGroq's `ToolBaseModel` (AutoGroq/AutoGroq/models/tool_base_model.py):
    a tool record, its dictionary form and back.

    Attribute values are typed as the constructor annotates them; the
    `function` attribute is a Python callable, known here only by its
    identity, and is called through a host function. */
module ToolModel {
  import opened Base
  import opened PyJson

  datatype Tool = Tool(
    id: Option<int>,
    name: string,
    description: string,
    title: string,
    fileName: string,
    content: string,
    callable: Option<nat>,
    createdAt: Option<string>,
    updatedAt: Option<string>,
    userId: Option<string>,
    secrets: Json,
    libraries: seq<string>,
    timestamp: Option<string>)

  /** The constructor's arguments; `secrets` is None when it is JNull. */
  datatype ToolArgs = ToolArgs(
    id: Option<int>,
    name: string,
    description: string,
    title: string,
    fileName: string,
    content: string,
    callable: Option<nat>,
    createdAt: Option<string>,
    updatedAt: Option<string>,
    userId: Option<string>,
    secrets: Json,
    libraries: Option<seq<string>>,
    timestamp: Option<string>)

  /** A constructed tool never holds None as its secrets. */
  predicate Constructed(t: Tool)
  {
    !t.secrets.JNull?
  }

  /** `ToolBaseModel(...)`: every argument is stored, with secrets and
      libraries defaulting to [] when None is passed. */
  function NewTool(a: ToolArgs): (t: Tool)
    ensures Constructed(t)
    ensures t.secrets == (if a.secrets.JNull? then JList([]) else a.secrets)
    ensures t.libraries == (if a.libraries.None? then [] else a.libraries.value)
    ensures t.name == a.name && t.title == a.title && t.callable == a.callable
  {
    Tool(a.id, a.name, a.description, a.title, a.fileName, a.content, a.callable,
         a.createdAt, a.updatedAt, a.userId,
         if a.secrets.JNull? then JList([]) else a.secrets,
         if a.libraries.None? then [] else a.libraries.value,
         a.timestamp)
  }

  /** execute: calls the stored function, or raises ValueError when there
      is none. */
  function Execute(t: Tool, args: seq<Json>, call: (nat, seq<Json>) -> Json): (r: Result<Json, string>)
    ensures r.Ok? <==> t.callable.Some?
    ensures r.Ok? ==> r.value == call(t.callable.value, args)
    ensures r.Err? ==> r.error == "ValueError: No function defined for tool " + t.name
  {
    if t.callable.Some? then Ok(call(t.callable.value, args))
    else Err("ValueError: No function defined for tool " + t.name)
  }

  /** `str(t)`. */
  function ToolText(t: Tool): (s: string)
    ensures StartsWith(s, t.name) && EndsWith(s, t.description)
  {
    var s := t.name + ": " + t.description;
    assert s[..|t.name|] == t.name;
    assert s[|s| - |t.description|..] == t.description;
    s
  }

  // The keys of the dictionary form, one per attribute.
  const KeyName: string := "name"
  const KeyDescription: string := "description"
  const KeyTitle: string := "title"
  const KeyFileName: string := "file_name"
  const KeyContent: string := "content"
  const KeyId: string := "id"
  const KeyCreatedAt: string := "created_at"
  const KeyUpdatedAt: string := "updated_at"
  const KeyUserId: string := "user_id"
  const KeySecrets: string := "secrets"
  const KeyLibraries: string := "libraries"
  const KeyTimestamp: string := "timestamp"
  const KeyFunction: string := "function"

  const ToolDictKeys: set<string> := {KeyName, KeyDescription, KeyTitle, KeyFileName, KeyContent, KeyId,
    KeyCreatedAt, KeyUpdatedAt, KeyUserId, KeySecrets, KeyLibraries, KeyTimestamp}

  /** to_dict: every attribute but `function`. */
  function ToDict(t: Tool): (d: Dict)
    ensures d.Keys == ToolDictKeys && KeyFunction !in d
  {
    map[
      KeyName := JStr(t.name),
      KeyDescription := JStr(t.description),
      KeyTitle := JStr(t.title),
      KeyFileName := JStr(t.fileName),
      KeyContent := JStr(t.content),
      KeyId := IntOpt(t.id),
      KeyCreatedAt := StrOpt(t.createdAt),
      KeyUpdatedAt := StrOpt(t.updatedAt),
      KeyUserId := StrOpt(t.userId),
      KeySecrets := t.secrets,
      KeyLibraries := StrList(t.libraries),
      KeyTimestamp := StrOpt(t.timestamp)]
  }

  predicate StrIfPresent(data: Dict, key: string)
  {
    key in data ==> data[key].JStr?
  }

  predicate StrOptIfPresent(data: Dict, key: string)
  {
    key in data ==> IsStrOpt(data[key])
  }

  /** A dictionary whose values have the constructor's annotated types. */
  predicate ToolDictTyped(data: Dict)
  {
    && (KeyId in data ==> IsIntOpt(data[KeyId]))
    && StrIfPresent(data, KeyName) && StrIfPresent(data, KeyDescription)
    && StrIfPresent(data, KeyTitle) && StrIfPresent(data, KeyFileName) && StrIfPresent(data, KeyContent)
    && StrOptIfPresent(data, KeyCreatedAt) && StrOptIfPresent(data, KeyUpdatedAt)
    && StrOptIfPresent(data, KeyUserId) && StrOptIfPresent(data, KeyTimestamp)
    && (KeyLibraries in data ==> data[KeyLibraries].JNull? || IsStrList(data[KeyLibraries]))
  }

  function StrOr(data: Dict, key: string, default: string): string
    requires StrIfPresent(data, key)
  {
    if key in data then data[key].s else default
  }

  function LibrariesOf(data: Dict): Option<seq<string>>
    requires KeyLibraries in data ==> data[KeyLibraries].JNull? || IsStrList(data[KeyLibraries])
  {
    if KeyLibraries in data then AsStrListOpt(data[KeyLibraries]) else None
  }

  /** from_dict: name and description default to "", title, file_name and
      content must be present, and no function is restored. */
  function FromDict(data: Dict): (r: Result<Tool, string>)
    requires ToolDictTyped(data)
    ensures r.Err? <==> !(KeyTitle in data && KeyFileName in data && KeyContent in data)
    ensures KeyTitle !in data ==> r == Err(KeyError(KeyTitle))
    ensures r.Ok? ==> r.value.name == StrOr(data, KeyName, "") && r.value.description == StrOr(data, KeyDescription, "")
    ensures r.Ok? ==> r.value.callable.None? && Constructed(r.value)
  {
    if KeyTitle !in data then Err(KeyError(KeyTitle))
    else if KeyFileName !in data then Err(KeyError(KeyFileName))
    else if KeyContent !in data then Err(KeyError(KeyContent))
    else Ok(NewTool(ToolArgs(
      AsIntOpt(Get(data, KeyId, JNull)),
      StrOr(data, KeyName, ""),
      StrOr(data, KeyDescription, ""),
      data[KeyTitle].s,
      data[KeyFileName].s,
      data[KeyContent].s,
      None,
      AsStrOpt(Get(data, KeyCreatedAt, JNull)),
      AsStrOpt(Get(data, KeyUpdatedAt, JNull)),
      AsStrOpt(Get(data, KeyUserId, JNull)),
      Get(data, KeySecrets, JNull),
      LibrariesOf(data),
      AsStrOpt(Get(data, KeyTimestamp, JNull)))))
  }

  /** `d` holds the entries of `to_dict(t)`. */
  predicate HoldsEntries(d: Dict, t: Tool)
  {
      && KeyName in d && d[KeyName] == JStr(t.name)
      && KeyDescription in d && d[KeyDescription] == JStr(t.description)
      && KeyTitle in d && d[KeyTitle] == JStr(t.title)
      && KeyFileName in d && d[KeyFileName] == JStr(t.fileName)
      && KeyContent in d && d[KeyContent] == JStr(t.content)
      && KeyId in d && d[KeyId] == IntOpt(t.id)
      && KeyCreatedAt in d && d[KeyCreatedAt] == StrOpt(t.createdAt)
      && KeyUpdatedAt in d && d[KeyUpdatedAt] == StrOpt(t.updatedAt)
      && KeyUserId in d && d[KeyUserId] == StrOpt(t.userId)
      && KeySecrets in d && d[KeySecrets] == t.secrets
      && KeyLibraries in d && d[KeyLibraries] == StrList(t.libraries)
      && KeyTimestamp in d && d[KeyTimestamp] == StrOpt(t.timestamp)
  }

  lemma {:induction false} ToDictEntries1(t: Tool)
    ensures var d := ToDict(t);
      && KeyName in d && d[KeyName] == JStr(t.name)
      && KeyDescription in d && d[KeyDescription] == JStr(t.description)
      && KeyTitle in d && d[KeyTitle] == JStr(t.title)
  {
  }

  lemma {:induction false} ToDictEntries2(t: Tool)
    ensures var d := ToDict(t);
      && KeyFileName in d && d[KeyFileName] == JStr(t.fileName)
      && KeyContent in d && d[KeyContent] == JStr(t.content)
      && KeyId in d && d[KeyId] == IntOpt(t.id)
  {
  }

  lemma {:induction false} ToDictEntries3(t: Tool)
    ensures var d := ToDict(t);
      && KeyCreatedAt in d && d[KeyCreatedAt] == StrOpt(t.createdAt)
      && KeyUpdatedAt in d && d[KeyUpdatedAt] == StrOpt(t.updatedAt)
      && KeyUserId in d && d[KeyUserId] == StrOpt(t.userId)
  {
  }

  lemma {:induction false} ToDictEntries4(t: Tool)
    ensures var d := ToDict(t);
      && KeySecrets in d && d[KeySecrets] == t.secrets
      && KeyLibraries in d && d[KeyLibraries] == StrList(t.libraries)
      && KeyTimestamp in d && d[KeyTimestamp] == StrOpt(t.timestamp)
  {
  }

  lemma {:induction false} ToDictHoldsEntries(t: Tool)
    ensures HoldsEntries(ToDict(t), t)
  {
    ToDictEntries1(t);
    ToDictEntries2(t);
    ToDictEntries3(t);
    ToDictEntries4(t);
  }

  /** Any dictionary with those entries reads back as `t` without its
      function. */
  lemma {:induction false} FromEntries(d: Dict, t: Tool)
    requires Constructed(t) && HoldsEntries(d, t)
    ensures ToolDictTyped(d)
    ensures FromDict(d) == Ok(t.(callable := None))
  {
    StrListRoundTrip(t.libraries);
  }

  /** `from_dict(to_dict(t))` is `t` without its function. */
  lemma {:induction false} RoundTrip(t: Tool)
    requires Constructed(t)
    ensures ToolDictTyped(ToDict(t))
    ensures FromDict(ToDict(t)) == Ok(t.(callable := None))
  {
    ToDictHoldsEntries(t);
    FromEntries(ToDict(t), t);
  }

  const ToolParameters: set<string> := ToolDictKeys + {KeyFunction}
  const RequiredToolParameters: set<string> := {KeyName, KeyDescription, KeyTitle, KeyFileName, KeyContent}

  /** A keyword-argument dictionary whose values have the annotated types;
      a function is a callable (or None). */
  predicate ToolKwargsTyped(kw: Dict)
  {
    ToolDictTyped(kw) && (KeyFunction in kw ==> kw[KeyFunction].JNull? || kw[KeyFunction].JOpaque?)
  }

  /** `ToolBaseModel(**kw)`: an unknown keyword or a missing required one
      is a TypeError. */
  function FromKwargs(kw: Dict): (r: Result<Tool, string>)
    requires ToolKwargsTyped(kw)
    ensures r.Ok? <==> kw.Keys <= ToolParameters && RequiredToolParameters <= kw.Keys
    ensures r.Ok? ==> r.value.name == kw[KeyName].s && r.value.title == kw[KeyTitle].s && Constructed(r.value)
    ensures r.Ok? ==> r.value.callable == (if KeyFunction in kw && kw[KeyFunction].JOpaque? then Some(kw[KeyFunction].ref) else None)
  {
    if !(kw.Keys <= ToolParameters) then Err("TypeError: unexpected keyword argument")
    else if !(RequiredToolParameters <= kw.Keys) then Err("TypeError: missing required argument")
    else
      var f := Get(kw, KeyFunction, JNull);
      Ok(NewTool(ToolArgs(
        AsIntOpt(Get(kw, KeyId, JNull)),
        kw[KeyName].s, kw[KeyDescription].s, kw[KeyTitle].s, kw[KeyFileName].s, kw[KeyContent].s,
        if f.JOpaque? then Some(f.ref) else None,
        AsStrOpt(Get(kw, KeyCreatedAt, JNull)),
        AsStrOpt(Get(kw, KeyUpdatedAt, JNull)),
        AsStrOpt(Get(kw, KeyUserId, JNull)),
        Get(kw, KeySecrets, JNull),
        LibrariesOf(kw),
        AsStrOpt(Get(kw, KeyTimestamp, JNull)))))
  }

  /** Passing a tool's own dictionary as keyword arguments rebuilds it,
      without its function. */
  lemma {:induction false} KwargsRoundTrip(t: Tool)
    requires Constructed(t)
    ensures ToolKwargsTyped(ToDict(t))
    ensures FromKwargs(ToDict(t)) == Ok(t.(callable := None))
  {
    ToDictHoldsEntries(t);
    KwargsFromEntries(ToDict(t), t);
  }

  lemma {:induction false} KwargsFromEntries(d: Dict, t: Tool)
    requires Constructed(t) && HoldsEntries(d, t) && d.Keys == ToolDictKeys
    ensures ToolKwargsTyped(d)
    ensures FromKwargs(d) == Ok(t.(callable := None))
  {
    StrListRoundTrip(t.libraries);
    FromEntries(d, t);
    assert KeyFunction !in d;
  }

  // ---------------------------------------------------------------------
  // Attribute access: get, [] and in
  // ---------------------------------------------------------------------

  /** The data attribute named `key`: its entry in the dictionary form, or
      the stored function (None when there is none) for `function`. */
  function Attribute(t: Tool, key: string): (r: Option<Json>)
    ensures r.Some? <==> key in ToolParameters
    ensures key == KeyFunction ==> r == Some(if t.callable.Some? then JOpaque(t.callable.value) else JNull)
  {
    if key == KeyFunction then Some(if t.callable.Some? then JOpaque(t.callable.value) else JNull)
    else
      var d := ToDict(t);
      if key in d then Some(d[key]) else None
  }

  /** `t.get(key, default)`. */
  function GetAttr(t: Tool, key: string, default: Json): (r: Json)
    ensures Attribute(t, key).None? ==> r == default
    ensures Attribute(t, key).Some? ==> r == Attribute(t, key).value
  {
    var v := Attribute(t, key);
    if v.Some? then v.value else default
  }

  /** `t[key]`: AttributeError for a missing attribute. */
  function GetItem(t: Tool, key: string): (r: Result<Json, string>)
    ensures r.Ok? <==> key in ToolParameters
    ensures r.Ok? ==> r.value == GetAttr(t, key, JNull)
  {
    var v := Attribute(t, key);
    if v.Some? then Ok(v.value)
    else Err("AttributeError: 'ToolBaseModel' object has no attribute '" + key + "'")
  }

  /** `key in t`. */
  predicate HasAttr(t: Tool, key: string)
  {
    Attribute(t, key).Some?
  }

  /** `get` agrees with the dictionary form on every key it has, and
      returns the default exactly for a name that is not an attribute. */
  lemma {:induction false} GetAttrMatchesDict(t: Tool, key: string, default: Json)
    ensures HasAttr(t, key) <==> key in ToDict(t) || key == KeyFunction
    ensures key in ToDict(t) ==> GetAttr(t, key, default) == ToDict(t)[key]
    ensures !HasAttr(t, key) ==> GetAttr(t, key, default) == default
  {
  }

  /** Looking up attributes by name gives their values. */
  lemma {:induction false} GetAttrExamples(t: Tool, default: Json)
    ensures GetAttr(t, KeyTitle, default) == JStr(t.title)
    ensures GetItem(t, KeyLibraries) == Ok(StrList(t.libraries))
    ensures t.callable.None? ==> GetItem(t, KeyFunction) == Ok(JNull)
  {
    ToDictEntries1(t);
    ToDictEntries4(t);
  }
}
