/** Variable scopes of the interpreter (interpreter/interpreter/environment.py).

    Python links each Environment object to its enclosing one. Here all
    environments live in one arena, a sequence of frames, and an
    environment is its index; a frame's enclosing environment always has a
    smaller index, so the chains are finite. The class `Environments`
    mutates the arena as the Python methods mutate their `values` dicts;
    each method is proved against the functions `Lookup`, `Holder`,
    `AncestorOf` and `GetAtSpec`. */
module LoxEnvironment {
  import opened Base

  datatype Frame<V> = Frame(values: map<string, V>, enclosing: Option<nat>)

  /** Every frame encloses only frames created before it. */
  predicate Linked<V>(frames: seq<Frame<V>>)
  {
    forall i :: 0 <= i < |frames| ==> frames[i].enclosing.Some? ==> frames[i].enclosing.value < i
  }

  /** The message of the builtin RuntimeError raised by `get` and `assign`. */
  function UndefinedVariable(name: string): string
  {
    "Undefined variable '" + name + "'."
  }

  /** The AttributeError raised when a chain of enclosing environments is
      followed past the globals. */
  const NoEnclosing: string := "AttributeError: 'NoneType' object has no attribute 'enclosing'"

  /** The binding of `name` seen from `env`: the one in the nearest frame
      along the enclosing chain that holds the name. */
  function Lookup<V>(frames: seq<Frame<V>>, env: nat, name: string): Option<V>
    requires Linked(frames) && env < |frames|
    decreases env
  {
    if name in frames[env].values then Some(frames[env].values[name])
    else match frames[env].enclosing
      case None => None
      case Some(e) => Lookup(frames, e, name)
  }

  /** The nearest frame along the chain from `env` that holds `name`. */
  function Holder<V>(frames: seq<Frame<V>>, env: nat, name: string): (r: Option<nat>)
    requires Linked(frames) && env < |frames|
    ensures r.Some? <==> Lookup(frames, env, name).Some?
    ensures r.Some? ==>
      && r.value <= env && name in frames[r.value].values
      && Lookup(frames, env, name) == Some(frames[r.value].values[name])
    decreases env
  {
    if name in frames[env].values then Some(env)
    else match frames[env].enclosing
      case None => None
      case Some(e) => Holder(frames, e, name)
  }

  /** `ancestor(distance)`: the environment reached by following the
      enclosing link exactly `distance` times, if the chain is that long. */
  function AncestorOf<V>(frames: seq<Frame<V>>, env: nat, distance: nat): (r: Option<nat>)
    requires Linked(frames) && env < |frames|
    ensures r.Some? ==> r.value <= env
    decreases distance
  {
    if distance == 0 then Some(env)
    else match frames[env].enclosing
      case None => None
      case Some(e) => AncestorOf(frames, e, distance - 1)
  }

  /** The number of links from `env` to the frame that holds `name`. */
  function Distance<V>(frames: seq<Frame<V>>, env: nat, name: string): (r: Option<nat>)
    requires Linked(frames) && env < |frames|
    ensures r.Some? <==> Holder(frames, env, name).Some?
    ensures r.Some? ==> AncestorOf(frames, env, r.value) == Holder(frames, env, name)
    decreases env
  {
    if name in frames[env].values then Some(0)
    else match frames[env].enclosing
      case None => None
      case Some(e) => var d := Distance(frames, e, name); if d.Some? then Some(d.value + 1) else None
  }

  /** `get_at`: the value in the ancestor's own frame, None when that frame
      lacks the name, and an AttributeError when there is no such ancestor. */
  function GetAtSpec<V>(frames: seq<Frame<V>>, env: nat, distance: nat, name: string): Result<Option<V>, string>
    requires Linked(frames) && env < |frames|
  {
    match AncestorOf(frames, env, distance)
    case None => Err(NoEnclosing)
    case Some(a) => Ok(if name in frames[a].values then Some(frames[a].values[name]) else None)
  }

  /** The arena after `define(name, value)` in `env`. */
  function DefineIn<V>(frames: seq<Frame<V>>, env: nat, name: string, value: V): (r: seq<Frame<V>>)
    requires Linked(frames) && env < |frames|
    ensures Linked(r) && |r| == |frames|
  {
    frames[env := Frame(frames[env].values[name := value], frames[env].enclosing)]
  }

  /** The arena after writing `value` under `name` in frame `a`, whether
      or not the frame held the name. */
  function WriteIn<V>(frames: seq<Frame<V>>, a: nat, name: string, value: V): (r: seq<Frame<V>>)
    requires Linked(frames) && a < |frames|
    ensures Linked(r) && |r| == |frames|
  {
    DefineIn(frames, a, name, value)
  }

  /** `assign`: updates the nearest frame that holds the name; fails when
      none does. */
  function AssignIn<V>(frames: seq<Frame<V>>, env: nat, name: string, value: V): (r: Result<seq<Frame<V>>, string>)
    requires Linked(frames) && env < |frames|
    ensures r.Ok? ==> Linked(r.value) && |r.value| == |frames|
  {
    match Holder(frames, env, name)
    case None => Err(UndefinedVariable(name))
    case Some(h) => Ok(WriteIn(frames, h, name, value))
  }

  /** `assign_at`: writes into the ancestor's frame, even if it lacks the
      name; an AttributeError when there is no such ancestor. */
  function AssignAtSpec<V>(frames: seq<Frame<V>>, env: nat, distance: nat, name: string, value: V): (r: Result<seq<Frame<V>>, string>)
    requires Linked(frames) && env < |frames|
    ensures r.Ok? ==> Linked(r.value) && |r.value| == |frames|
  {
    match AncestorOf(frames, env, distance)
    case None => Err(NoEnclosing)
    case Some(a) => Ok(WriteIn(frames, a, name, value))
  }

  // ---------------------------------------------------------------------
  // Properties
  // ---------------------------------------------------------------------

  /** After `define`, the name is bound to the new value in that
      environment, overwriting any earlier binding there. */
  lemma {:induction false} DefineThenLookup<V>(frames: seq<Frame<V>>, env: nat, name: string, value: V)
    requires Linked(frames) && env < |frames|
    ensures Lookup(DefineIn(frames, env, name, value), env, name) == Some(value)
  {
  }

  /** `define` changes no other name, anywhere. */
  lemma {:induction false} DefineKeepsOthers<V>(frames: seq<Frame<V>>, env: nat, name: string, value: V, e: nat, other: string)
    requires Linked(frames) && env < |frames| && e < |frames| && other != name
    ensures Lookup(DefineIn(frames, env, name, value), e, other) == Lookup(frames, e, other)
    decreases e
  {
    var r := DefineIn(frames, env, name, value);
    assert r[e].enclosing == frames[e].enclosing;
    assert (other in r[e].values) == (other in frames[e].values);
    if other !in frames[e].values && frames[e].enclosing.Some? {
      DefineKeepsOthers(frames, env, name, value, frames[e].enclosing.value, other);
    }
  }

  /** `define` binds in the current environment only: an environment whose
      chain does not pass through `env` sees no change. */
  lemma {:induction false} DefineIsLocal<V>(frames: seq<Frame<V>>, env: nat, name: string, value: V, e: nat)
    requires Linked(frames) && env < |frames| && e < env
    ensures Lookup(DefineIn(frames, env, name, value), e, name) == Lookup(frames, e, name)
    decreases e
  {
    var r := DefineIn(frames, env, name, value);
    assert r[e] == frames[e];
    if name !in frames[e].values && frames[e].enclosing.Some? {
      DefineIsLocal(frames, env, name, value, frames[e].enclosing.value);
    }
  }

  /** The frames that hold a name after a successful `assign` are exactly
      those that held it before: assignment never creates a binding. */
  lemma {:induction false} AssignNeverCreates<V>(frames: seq<Frame<V>>, env: nat, name: string, value: V, i: nat)
    requires Linked(frames) && env < |frames| && i < |frames|
    requires AssignIn(frames, env, name, value).Ok?
    ensures AssignIn(frames, env, name, value).value[i].values.Keys == frames[i].values.Keys
    ensures AssignIn(frames, env, name, value).value[i].enclosing == frames[i].enclosing
  {
  }

  /** After a successful `assign`, the name reads back the new value from
      the environment where it was assigned. */
  lemma {:induction false} AssignThenLookup<V>(frames: seq<Frame<V>>, env: nat, name: string, value: V)
    requires Linked(frames) && env < |frames|
    requires AssignIn(frames, env, name, value).Ok?
    ensures Lookup(AssignIn(frames, env, name, value).value, env, name) == Some(value)
  {
    var h := Holder(frames, env, name).value;
    var r := WriteIn(frames, h, name, value);
    AssignReadsBack(frames, env, name, value, h, r);
  }

  lemma {:induction false} AssignReadsBack<V>(frames: seq<Frame<V>>, env: nat, name: string, value: V, h: nat, r: seq<Frame<V>>)
    requires Linked(frames) && env < |frames| && Holder(frames, env, name) == Some(h)
    requires r == WriteIn(frames, h, name, value)
    ensures Lookup(r, env, name) == Some(value)
    decreases env
  {
    if name !in frames[env].values {
      var e := frames[env].enclosing.value;
      assert r[env].enclosing == frames[env].enclosing;
      assert h != env;
      AssignReadsBack(frames, e, name, value, h, r);
    }
  }

  /** Assignment fails exactly when `get` would fail. */
  lemma {:induction false} AssignFailsIffUndefined<V>(frames: seq<Frame<V>>, env: nat, name: string, value: V)
    requires Linked(frames) && env < |frames|
    ensures AssignIn(frames, env, name, value).Err? <==> Lookup(frames, env, name).None?
  {
  }

  /** Reading at the distance of the holding frame gives what `get` gives:
      a resolved depth and the enclosing chain agree. */
  lemma {:induction false} GetAtHolderDistance<V>(frames: seq<Frame<V>>, env: nat, name: string)
    requires Linked(frames) && env < |frames| && Distance(frames, env, name).Some?
    ensures GetAtSpec(frames, env, Distance(frames, env, name).value, name) == Ok(Lookup(frames, env, name))
  {
  }

  /** Following `d` links and then one more is following `d + 1` links. */
  lemma {:induction false} AncestorStep<V>(frames: seq<Frame<V>>, env: nat, d: nat)
    requires Linked(frames) && env < |frames| && AncestorOf(frames, env, d).Some?
    ensures AncestorOf(frames, env, d + 1) ==
      frames[AncestorOf(frames, env, d).value].enclosing
    decreases d
  {
    if d > 0 {
      AncestorStep(frames, frames[env].enclosing.value, d - 1);
    }
  }

  // ---------------------------------------------------------------------
  // The environments, updated in place
  // ---------------------------------------------------------------------

  class Environments<V> {
    /** Every environment created so far; index 0 is the globals. */
    var frames: seq<Frame<V>>

    ghost predicate Valid()
      reads this
    {
      |frames| >= 1 && Linked(frames)
    }

    /** The globals: an empty environment with no enclosing one. */
    constructor ()
      ensures Valid() && frames == [Frame(map[], None)]
    {
      frames := [Frame(map[], None)];
    }

    /** `Environment(enclosing)`: a fresh, empty environment. */
    method New(enclosing: nat) returns (e: nat)
      requires Valid() && enclosing < |frames|
      modifies this
      ensures Valid() && e == |old(frames)| && frames == old(frames) + [Frame(map[], Some(enclosing))]
    {
      e := |frames|;
      frames := frames + [Frame(map[], Some(enclosing))];
    }

    /** define: binds in `env` only, overwriting silently. */
    method Define(env: nat, name: string, value: V)
      requires Valid() && env < |frames|
      modifies this
      ensures Valid() && frames == DefineIn(old(frames), env, name, value)
    {
      frames := frames[env := Frame(frames[env].values[name := value], frames[env].enclosing)];
    }

    /** get: the nearest binding along the enclosing chain. */
    method Get(env: nat, name: string) returns (r: Result<V, string>)
      requires Valid() && env < |frames|
      ensures Lookup(frames, env, name).Some? ==> r == Ok(Lookup(frames, env, name).value)
      ensures Lookup(frames, env, name).None? ==> r == Err(UndefinedVariable(name))
    {
      var e: nat := env;
      while true
        invariant e < |frames| && Lookup(frames, e, name) == Lookup(frames, env, name)
        decreases e
      {
        if name in frames[e].values {
          return Ok(frames[e].values[name]);
        }
        if frames[e].enclosing.None? {
          return Err(UndefinedVariable(name));
        }
        e := frames[e].enclosing.value;
      }
    }

    /** assign: updates the nearest frame that already holds the name. */
    method Assign(env: nat, name: string, value: V) returns (r: Result<(), string>)
      requires Valid() && env < |frames|
      modifies this
      ensures Valid()
      ensures AssignIn(old(frames), env, name, value).Err? ==>
        r == Err(AssignIn(old(frames), env, name, value).error) && frames == old(frames)
      ensures AssignIn(old(frames), env, name, value).Ok? ==>
        r == Ok(()) && frames == AssignIn(old(frames), env, name, value).value
    {
      var e: nat := env;
      while true
        invariant e < |frames| && Holder(frames, e, name) == Holder(frames, env, name)
        decreases e
      {
        if name in frames[e].values {
          Define(e, name, value);
          return Ok(());
        }
        if frames[e].enclosing.None? {
          return Err(UndefinedVariable(name));
        }
        e := frames[e].enclosing.value;
      }
    }

    /** ancestor: follows the enclosing link `distance` times. */
    method Ancestor(env: nat, distance: nat) returns (r: Option<nat>)
      requires Valid() && env < |frames|
      ensures r == AncestorOf(frames, env, distance)
    {
      var e := env;
      var i := 0;
      while i < distance
        invariant i <= distance && e < |frames|
        invariant AncestorOf(frames, env, i) == Some(e)
      {
        AncestorStep(frames, env, i);
        if frames[e].enclosing.None? {
          NoAncestorBeyond(frames, env, i + 1, distance);
          return None;
        }
        e := frames[e].enclosing.value;
        i := i + 1;
      }
      return Some(e);
    }

    method GetAt(env: nat, distance: nat, name: string) returns (r: Result<Option<V>, string>)
      requires Valid() && env < |frames|
      ensures r == GetAtSpec(frames, env, distance, name)
    {
      var a := Ancestor(env, distance);
      if a.None? {
        return Err(NoEnclosing);
      }
      return Ok(if name in frames[a.value].values then Some(frames[a.value].values[name]) else None);
    }

    method AssignAt(env: nat, distance: nat, name: string, value: V) returns (r: Result<(), string>)
      requires Valid() && env < |frames|
      modifies this
      ensures Valid()
      ensures AssignAtSpec(old(frames), env, distance, name, value).Err? ==> r.Err? && frames == old(frames)
      ensures AssignAtSpec(old(frames), env, distance, name, value).Ok? ==>
        r == Ok(()) && frames == AssignAtSpec(old(frames), env, distance, name, value).value
    {
      var a := Ancestor(env, distance);
      if a.None? {
        return Err(NoEnclosing);
      }
      Define(a.value, name, value);
      return Ok(());
    }
  }

  /** Once the chain ends, no longer distance reaches an environment. */
  lemma {:induction false} NoAncestorBeyond<V>(frames: seq<Frame<V>>, env: nat, d: nat, distance: nat)
    requires Linked(frames) && env < |frames| && AncestorOf(frames, env, d).None? && d <= distance
    ensures AncestorOf(frames, env, distance).None?
    decreases d
  {
    if d > 0 && frames[env].enclosing.Some? {
      NoAncestorBeyond(frames, frames[env].enclosing.value, d - 1, distance - 1);
    }
  }
}
