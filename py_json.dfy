/** The Python values that AutoGroq's models put in and read from plain
    dictionaries (`to_dict`/`from_dict`): JSON values, plus `JOpaque` for
    a Python object that is not JSON (a callable), known only by identity. */
module PyJson {
  import opened Base

  datatype Json =
    | JNull
    | JBool(b: bool)
    | JInt(i: int)
    | JStr(s: string)
    | JList(items: seq<Json>)
    | JObj(fields: map<string, Json>)
    | JOpaque(ref: nat)

  type Dict = map<string, Json>

  /** Python truthiness: None, False, 0 and empty containers are false. */
  predicate Truthy(j: Json)
  {
    match j
    case JNull => false
    case JBool(b) => b
    case JInt(i) => i != 0
    case JStr(s) => s != ""
    case JList(xs) => xs != []
    case JObj(m) => m != map[]
    case JOpaque(_) => true
  }

  /** `data.get(key, default)`. */
  function Get(data: Dict, key: string, default: Json): Json
  {
    if key in data then data[key] else default
  }

  /** The text of the KeyError `data[key]` raises. */
  function KeyError(key: string): string
  {
    "KeyError: '" + key + "'"
  }

  /** `data[key]`. */
  function Require(data: Dict, key: string): (r: Result<Json, string>)
    ensures r.Ok? <==> key in data
    ensures r.Ok? ==> r.value == data[key]
    ensures r.Err? ==> r.error == KeyError(key)
  {
    if key in data then Ok(data[key]) else Err(KeyError(key))
  }

  // Encoders for the annotated field types.

  function StrOpt(o: Option<string>): Json
  {
    if o.Some? then JStr(o.value) else JNull
  }

  function IntOpt(o: Option<int>): Json
  {
    if o.Some? then JInt(o.value) else JNull
  }

  function BoolOpt(o: Option<bool>): Json
  {
    if o.Some? then JBool(o.value) else JNull
  }

  function StrList(xs: seq<string>): (r: Json)
    ensures r.JList? && |r.items| == |xs|
    ensures forall i :: 0 <= i < |xs| ==> r.items[i] == JStr(xs[i])
  {
    JList(seq(|xs|, i requires 0 <= i < |xs| => JStr(xs[i])))
  }

  function DictList(ds: seq<Dict>): (r: Json)
    ensures r.JList? && |r.items| == |ds|
    ensures forall i :: 0 <= i < |ds| ==> r.items[i] == JObj(ds[i])
  {
    JList(seq(|ds|, i requires 0 <= i < |ds| => JObj(ds[i])))
  }

  // Decoders: each reads a value of the annotated type back.

  predicate IsStrOpt(j: Json) { j.JNull? || j.JStr? }
  predicate IsIntOpt(j: Json) { j.JNull? || j.JInt? }
  predicate IsBoolOpt(j: Json) { j.JNull? || j.JBool? }
  predicate IsStrList(j: Json) { j.JList? && forall x :: x in j.items ==> x.JStr? }
  predicate IsDictList(j: Json) { j.JList? && forall x :: x in j.items ==> x.JObj? }

  function AsStrOpt(j: Json): (r: Option<string>)
    ensures IsStrOpt(j) ==> StrOpt(r) == j
  {
    if j.JStr? then Some(j.s) else None
  }

  function AsIntOpt(j: Json): (r: Option<int>)
    ensures IsIntOpt(j) ==> IntOpt(r) == j
  {
    if j.JInt? then Some(j.i) else None
  }

  function AsBoolOpt(j: Json): (r: Option<bool>)
    ensures IsBoolOpt(j) ==> BoolOpt(r) == j
  {
    if j.JBool? then Some(j.b) else None
  }

  function AsStrList(j: Json): (r: seq<string>)
    requires IsStrList(j)
    ensures StrList(r) == j
  {
    assert forall i :: 0 <= i < |j.items| ==> j.items[i] in j.items;
    var r := seq(|j.items|, i requires 0 <= i < |j.items| => j.items[i].s);
    assert StrList(r).items == j.items;
    r
  }

  function AsDictList(j: Json): (r: seq<Dict>)
    requires IsDictList(j)
    ensures DictList(r) == j
  {
    assert forall i :: 0 <= i < |j.items| ==> j.items[i] in j.items;
    var r := seq(|j.items|, i requires 0 <= i < |j.items| => j.items[i].fields);
    assert DictList(r).items == j.items;
    r
  }

  /** An optional list: None (or a missing key) reads as None. */
  function AsStrListOpt(j: Json): Option<seq<string>>
    requires j.JNull? || IsStrList(j)
  {
    if j.JNull? then None else Some(AsStrList(j))
  }

  function AsDictListOpt(j: Json): Option<seq<Dict>>
    requires j.JNull? || IsDictList(j)
  {
    if j.JNull? then None else Some(AsDictList(j))
  }

  lemma {:induction false} StrListRoundTrip(xs: seq<string>)
    ensures IsStrList(StrList(xs)) && AsStrList(StrList(xs)) == xs
  {
  }

  lemma {:induction false} DictListRoundTrip(ds: seq<Dict>)
    ensures IsDictList(DictList(ds)) && AsDictList(DictList(ds)) == ds
  {
  }
}
