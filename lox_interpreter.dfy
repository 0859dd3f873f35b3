/** The tree-walking evaluator (interpreter/interpreter/interpreter.py and
    FunctionObj.call/bind in interpreter/interpreter/callable.py).

    Evaluation is a family of functions from a state to a new state and an
    outcome: a value, or a raised signal (the interpreter's RuntimeError,
    another Python exception, or the Return that carries a function's
    result). A fuel argument bounds the number of steps, so that a program
    that does not terminate yields `OutOfFuel` instead of a value. The
    class `Interpreter` holds the state in fields, as the Python object
    does, and its methods run the functions.

    Every step keeps the invariant `StateOk`: environments only refer to
    earlier environments, and every function value's closure is an
    existing environment. */
module LoxInterpreter {
  import opened Base
  import opened LoxTokens
  import opened LoxAst
  import opened LoxEnvironment
  import opened LoxValues

  /** The globals are the first environment. */
  const Globals: nat := 0

  datatype Signal =
    | RuntimeErr(message: string, line: Option<nat>)
    | HostErr(text: string)
    | Returning(value: Value)
    | OutOfFuel

  datatype Outcome<T> = Normal(value: T) | Thrown(signal: Signal)

  datatype State = State(frames: seq<Frame<Value>>, env: nat, out: seq<string>, nextId: nat)

  /** What stays fixed while a program runs: the resolved depths, keyed by
      node id, and the host behaviour. */
  datatype Ctx = Ctx(locals: map<nat, nat>, host: Host)

  // ---------------------------------------------------------------------
  // The invariant
  // ---------------------------------------------------------------------

  /** Every closure in `v` is one of the first `n` environments. */
  ghost predicate ValueOk(v: Value, n: nat)
  {
    match v
    case Fn(_, _, c, _) => c < n
    case List(items) => forall x :: x in items ==> ValueOk(x, n)
    case _ => true
  }

  ghost predicate ValuesOk(vs: seq<Value>, n: nat)
  {
    forall x :: x in vs ==> ValueOk(x, n)
  }

  ghost predicate FramesOk(frames: seq<Frame<Value>>)
  {
    && |frames| >= 1 && Linked(frames)
    && forall i, k :: 0 <= i < |frames| && k in frames[i].values ==> ValueOk(frames[i].values[k], |frames|)
  }

  ghost predicate StateOk(st: State)
  {
    FramesOk(st.frames) && st.env < |st.frames|
  }

  /** A step keeps the invariant, only adds environments, and leaves the
      current environment as it found it. */
  ghost predicate Keeps(st: State, st2: State)
  {
    StateOk(st2) && |st.frames| <= |st2.frames| && st2.env == st.env
  }

  ghost predicate SignalOk(s: Signal, n: nat)
  {
    s.Returning? ==> ValueOk(s.value, n)
  }

  ghost predicate ValueOutOk(o: Outcome<Value>, n: nat)
  {
    match o
    case Normal(v) => ValueOk(v, n)
    case Thrown(s) => SignalOk(s, n)
  }

  ghost predicate ValuesOutOk(o: Outcome<seq<Value>>, n: nat)
  {
    match o
    case Normal(vs) => ValuesOk(vs, n)
    case Thrown(s) => SignalOk(s, n)
  }

  ghost predicate UnitOutOk(o: Outcome<()>, n: nat)
  {
    o.Thrown? ==> SignalOk(o.signal, n)
  }

  lemma {:induction false} ValueOkMono(v: Value, n: nat, m: nat)
    requires ValueOk(v, n) && n <= m
    ensures ValueOk(v, m)
  {
    if v.List? {
      forall x | x in v.items
        ensures ValueOk(x, m)
      {
        ValueOkMono(x, n, m);
      }
    }
  }

  lemma {:induction false} ValuesOkMono(vs: seq<Value>, n: nat, m: nat)
    requires ValuesOk(vs, n) && n <= m
    ensures ValuesOk(vs, m)
  {
    forall x | x in vs
      ensures ValueOk(x, m)
    {
      ValueOkMono(x, n, m);
    }
  }

  lemma {:induction false} FramesOkDefine(frames: seq<Frame<Value>>, env: nat, name: string, v: Value)
    requires FramesOk(frames) && env < |frames| && ValueOk(v, |frames|)
    ensures FramesOk(DefineIn(frames, env, name, v))
  {
  }

  lemma {:induction false} FramesOkPush(frames: seq<Frame<Value>>, enclosing: nat)
    requires FramesOk(frames) && enclosing < |frames|
    ensures FramesOk(frames + [Frame(map[], Some(enclosing))])
  {
    var r := frames + [Frame(map[], Some(enclosing))];
    forall i, k | 0 <= i < |r| && k in r[i].values
      ensures ValueOk(r[i].values[k], |r|)
    {
      ValueOkMono(frames[i].values[k], |frames|, |r|);
    }
  }

  lemma {:induction false} AssignInOk(frames: seq<Frame<Value>>, env: nat, name: string, v: Value)
    requires FramesOk(frames) && env < |frames| && ValueOk(v, |frames|)
    requires AssignIn(frames, env, name, v).Ok?
    ensures FramesOk(AssignIn(frames, env, name, v).value)
  {
    FramesOkDefine(frames, Holder(frames, env, name).value, name, v);
  }

  lemma {:induction false} AssignAtOk(frames: seq<Frame<Value>>, env: nat, distance: nat, name: string, v: Value)
    requires FramesOk(frames) && env < |frames| && ValueOk(v, |frames|)
    requires AssignAtSpec(frames, env, distance, name, v).Ok?
    ensures FramesOk(AssignAtSpec(frames, env, distance, name, v).value)
  {
    FramesOkDefine(frames, AncestorOf(frames, env, distance).value, name, v);
  }

  /** The write of an assignment expression keeps the invariant. */
  lemma {:induction false} AssignedOk(ctx: Ctx, st: State, name: string, id: nat, v: Value)
    requires StateOk(st) && ValueOk(v, |st.frames|)
    requires id in ctx.locals ==> AssignAtSpec(st.frames, st.env, ctx.locals[id], name, v).Ok?
    requires id !in ctx.locals ==> AssignIn(st.frames, Globals, name, v).Ok?
    ensures id in ctx.locals ==> FramesOk(AssignAtSpec(st.frames, st.env, ctx.locals[id], name, v).value)
    ensures id !in ctx.locals ==> FramesOk(AssignIn(st.frames, Globals, name, v).value)
  {
    if id in ctx.locals {
      AssignAtOk(st.frames, st.env, ctx.locals[id], name, v);
    } else {
      AssignInOk(st.frames, Globals, name, v);
    }
  }

  // ---------------------------------------------------------------------
  // Binding parameters
  // ---------------------------------------------------------------------

  /** The `define` loop of `call`: parameter i is bound to argument i in
      `env`, in order. */
  function BindParams(frames: seq<Frame<Value>>, env: nat, params: seq<Token>, args: seq<Value>): (r: seq<Frame<Value>>)
    requires Linked(frames) && env < |frames| && |params| == |args|
    ensures Linked(r) && |r| == |frames|
    decreases |params|
  {
    if |params| == 0 then frames
    else BindParams(DefineIn(frames, env, params[0].lexeme, args[0]), env, params[1..], args[1..])
  }

  /** Binding keeps the invariant. */
  lemma {:induction false} BindParamsOk(frames: seq<Frame<Value>>, env: nat, params: seq<Token>, args: seq<Value>)
    requires FramesOk(frames) && env < |frames| && |params| == |args| && ValuesOk(args, |frames|)
    ensures FramesOk(BindParams(frames, env, params, args))
    decreases |params|
  {
    if |params| > 0 {
      assert args[0] in args;
      FramesOkDefine(frames, env, params[0].lexeme, args[0]);
      assert forall x :: x in args[1..] ==> x in args;
      BindParamsOk(DefineIn(frames, env, params[0].lexeme, args[0]), env, params[1..], args[1..]);
    }
  }

  /** After binding, a parameter whose name is not repeated later in the
      list is bound to its own argument. */
  lemma {:induction false} BindParamsValue(frames: seq<Frame<Value>>, env: nat, params: seq<Token>, args: seq<Value>, i: nat)
    requires Linked(frames) && env < |frames| && |params| == |args| && i < |params|
    requires forall j :: i < j < |params| ==> params[j].lexeme != params[i].lexeme
    ensures var r := BindParams(frames, env, params, args);
      params[i].lexeme in r[env].values && r[env].values[params[i].lexeme] == args[i]
    decreases |params|
  {
    var f1 := DefineIn(frames, env, params[0].lexeme, args[0]);
    if i == 0 {
      forall j | 0 <= j < |params| - 1
        ensures params[1..][j].lexeme != params[0].lexeme
      {
        assert params[1..][j] == params[j + 1];
      }
      BindParamsKeeps(f1, env, params[1..], args[1..], params[0].lexeme);
    } else {
      forall j | i - 1 < j < |params| - 1
        ensures params[1..][j].lexeme != params[1..][i - 1].lexeme
      {
        assert params[1..][j] == params[j + 1];
      }
      BindParamsValue(f1, env, params[1..], args[1..], i - 1);
      assert args[1..][i - 1] == args[i];
    }
  }

  /** Binding touches only `env`'s bindings. */
  lemma {:induction false} BindParamsFrames(frames: seq<Frame<Value>>, env: nat, params: seq<Token>, args: seq<Value>)
    requires Linked(frames) && env < |frames| && |params| == |args|
    ensures var r := BindParams(frames, env, params, args);
      && (forall j :: 0 <= j < |frames| && j != env ==> r[j] == frames[j])
      && r[env].enclosing == frames[env].enclosing
    decreases |params|
  {
    if |params| > 0 {
      BindParamsFrames(DefineIn(frames, env, params[0].lexeme, args[0]), env, params[1..], args[1..]);
    }
  }

  /** A name that no parameter has keeps its binding. */
  lemma {:induction false} BindParamsKeeps(frames: seq<Frame<Value>>, env: nat, params: seq<Token>, args: seq<Value>, name: string)
    requires Linked(frames) && env < |frames| && |params| == |args|
    requires forall j :: 0 <= j < |params| ==> params[j].lexeme != name
    ensures var r := BindParams(frames, env, params, args);
      (name in r[env].values <==> name in frames[env].values)
      && (name in frames[env].values ==> r[env].values[name] == frames[env].values[name])
    decreases |params|
  {
    if |params| > 0 {
      var f1 := DefineIn(frames, env, params[0].lexeme, args[0]);
      assert forall j :: 0 <= j < |params| - 1 ==> params[1..][j] == params[j + 1];
      BindParamsKeeps(f1, env, params[1..], args[1..], name);
    }
  }

  // ---------------------------------------------------------------------
  // Pure steps
  // ---------------------------------------------------------------------

  function LiteralValueOf(l: LiteralValue): Value
  {
    match l
    case NilLit => Nil
    case BoolLit(b) => Bool(b)
    case NumberLit(lexeme) => Num(DecimalValue(lexeme))
    case StringLit(s) => Str(s)
  }

  /** lookup_variable: a resolved use reads its own ancestor with
      `get_at` (nil when that frame lacks the name); an unresolved one reads
      the globals with `get`. */
  function LookupVariable(ctx: Ctx, st: State, name: string, id: nat): (o: Outcome<Value>)
    requires StateOk(st)
    ensures ValueOutOk(o, |st.frames|)
  {
    if id in ctx.locals then
      match GetAtSpec(st.frames, st.env, ctx.locals[id], name)
      case Err(m) => Thrown(HostErr(m))
      case Ok(None) => Normal(Nil)
      case Ok(Some(v)) => Normal(v)
    else
      var h := Holder(st.frames, Globals, name);
      match Lookup(st.frames, Globals, name)
      case None => Thrown(HostErr(UndefinedVariable(name)))
      case Some(v) => Normal(v)
  }

  /** When the resolver's depth is the distance to the frame that holds the
      name, the resolved read and the dynamic `get` agree. */
  lemma {:induction false} ResolvedLookupAgrees(ctx: Ctx, st: State, name: string, id: nat)
    requires StateOk(st) && id in ctx.locals && Distance(st.frames, st.env, name) == Some(ctx.locals[id])
    ensures LookupVariable(ctx, st, name, id) == Normal(Lookup(st.frames, st.env, name).value)
  {
    GetAtHolderDistance(st.frames, st.env, name);
  }

  function CheckNumbers(op: Token, a: Value, b: Value): Option<Signal>
  {
    if IsNumber(a) && IsNumber(b) then None else Some(RuntimeErr("Operands must be numbers.", Some(op.line)))
  }

  /** visit_binary_expr once both operands are values; arithmetic is on
      exact reals. */
  function BinaryOp(op: Token, a: Value, b: Value, host: Host): (o: Outcome<Value>)
    ensures op.kind in {MINUS, SLASH, STAR, GREATER, GREATER_EQUAL, LESS, LESS_EQUAL} ==>
      (o.Thrown? <==> !(IsNumber(a) && IsNumber(b)) || (op.kind == SLASH && NumberOf(b) == 0.0))
    ensures op.kind == PLUS && o.Thrown? ==> !(IsNumber(a) && IsNumber(b)) && !a.Str? && !b.Str?
    ensures op.kind == EQUAL_EQUAL ==> o == Normal(Bool(IsEqual(a, b)))
    ensures op.kind == BANG_EQUAL ==> o == Normal(Bool(!IsEqual(a, b)))
    ensures o.Normal? ==> ValueOk(o.value, 0)
  {
    var k := op.kind;
    if k == MINUS then
      if CheckNumbers(op, a, b).Some? then Thrown(CheckNumbers(op, a, b).value) else Normal(Num(NumberOf(a) - NumberOf(b)))
    else if k == SLASH then
      if CheckNumbers(op, a, b).Some? then Thrown(CheckNumbers(op, a, b).value)
      else if NumberOf(b) == 0.0 then Thrown(RuntimeErr("Division by zero.", Some(op.line)))
      else Normal(Num(NumberOf(a) / NumberOf(b)))
    else if k == STAR then
      if CheckNumbers(op, a, b).Some? then Thrown(CheckNumbers(op, a, b).value) else Normal(Num(NumberOf(a) * NumberOf(b)))
    else if k == PLUS then
      if IsNumber(a) && IsNumber(b) then Normal(Num(NumberOf(a) + NumberOf(b)))
      else if a.Str? || b.Str? then Normal(Str(PyStr(a, host) + PyStr(b, host)))
      else Thrown(RuntimeErr("Operands must be two numbers or two strings.", Some(op.line)))
    else if k in {GREATER, GREATER_EQUAL, LESS, LESS_EQUAL} then
      if CheckNumbers(op, a, b).Some? then Thrown(CheckNumbers(op, a, b).value)
      else
        var x, y := NumberOf(a), NumberOf(b);
        Normal(Bool(if k == GREATER then x > y else if k == GREATER_EQUAL then x >= y else if k == LESS then x < y else x <= y))
    else if k == BANG_EQUAL then Normal(Bool(!IsEqual(a, b)))
    else if k == EQUAL_EQUAL then Normal(Bool(IsEqual(a, b)))
    else Normal(Nil)
  }

  /** visit_unary_expr once the operand is a value. */
  function UnaryOp(op: Token, v: Value): (o: Outcome<Value>)
    ensures op.kind == MINUS ==> (o.Thrown? <==> !IsNumber(v))
    ensures op.kind == BANG ==> o == Normal(Bool(!IsTruthy(v)))
    ensures o.Normal? ==> ValueOk(o.value, 0)
  {
    if op.kind == MINUS then
      if IsNumber(v) then Normal(Num(-NumberOf(v))) else Thrown(RuntimeErr("Operand must be a number.", Some(op.line)))
    else if op.kind == BANG then Normal(Bool(!IsTruthy(v)))
    else Normal(Nil)
  }

  /** `int(x)`: truncation toward zero. */
  function Truncate(x: real): (i: int)
    ensures x >= 0.0 ==> i as real <= x < i as real + 1.0
    ensures x < 0.0 ==> i as real - 1.0 < x <= i as real
  {
    if x >= 0.0 then x.Floor else -((-x).Floor)
  }

  /** visit_get_expr once object and index are values, with the errors
      raised as runtime errors. */
  function GetIndex(obj: Value, index: Value): (o: Outcome<Value>)
    ensures o.Normal? <==>
      obj.List? && IsNumber(index) && 0 <= Truncate(NumberOf(index)) < |obj.items|
    ensures o.Normal? ==> o.value == obj.items[Truncate(NumberOf(index))]
    ensures o.Thrown? ==> o.signal.RuntimeErr?
  {
    if !obj.List? then Thrown(RuntimeErr("Only lists have indices.", None))
    else if !IsNumber(index) then Thrown(RuntimeErr("Index must be a number.", None))
    else
      var i := Truncate(NumberOf(index));
      if i < 0 || i >= |obj.items| then Thrown(RuntimeErr("Index out of bounds.", None))
      else Normal(obj.items[i])
  }

  /** The class name Python reports for an expression node. */
  function ExprClassName(e: Expr): string
  {
    match e
    case Binary(_, _, _) => "Binary"
    case Grouping(_) => "Grouping"
    case Literal(_) => "Literal"
    case Unary(_, _) => "Unary"
    case Variable(_, _) => "Variable"
    case Assign(_, _, _) => "Assign"
    case Logical(_, _, _) => "Logical"
    case Call(_, _, _) => "Call"
    case ListExpr(_) => "List"
    case Get(_, _) => "Get"
  }

  /** The message of the AttributeError raised when `.line` is read from
      an expression node of the given class. */
  function NoLineAttribute(className: string): string
  {
    "AttributeError: '" + className + "' object has no attribute 'line'"
  }

  /** visit_get_expr as written: each error is raised as
      `RuntimeError(expr.index, ...)`, whose constructor reads
      `expr.index.line`; no expression node has that attribute, so an
      AttributeError escapes instead of the runtime error. */
  function GetIndexAsWritten(indexExpr: Expr, obj: Value, index: Value): Outcome<Value>
  {
    if !obj.List? || !IsNumber(index) || !(0 <= Truncate(NumberOf(index)) < |obj.items|) then
      Thrown(HostErr(NoLineAttribute(ExprClassName(indexExpr))))
    else Normal(obj.items[Truncate(NumberOf(index))])
  }

  /** As written, every indexing error escapes as an AttributeError, which
      `interpret` does not catch; the two agree on every successful index. */
  lemma {:induction false} GetIndexAsWrittenEscapes(indexExpr: Expr, obj: Value, index: Value)
    ensures GetIndex(obj, index).Thrown? <==> GetIndexAsWritten(indexExpr, obj, index).Thrown?
    ensures GetIndexAsWritten(indexExpr, obj, index).Thrown? ==> GetIndexAsWritten(indexExpr, obj, index).signal.HostErr?
    ensures GetIndex(obj, index).Normal? ==> GetIndex(obj, index) == GetIndexAsWritten(indexExpr, obj, index)
  {
  }

  /** `print [1][5];`: the corrected evaluator reports "Index out of
      bounds."; as written, the program stops with an AttributeError. */
  lemma {:induction false} GetIndexCounterexample()
    ensures GetIndex(List([Num(1.0)]), Num(5.0)) == Thrown(RuntimeErr("Index out of bounds.", None))
    ensures GetIndexAsWritten(Literal(NumberLit("5")), List([Num(1.0)]), Num(5.0))
      == Thrown(HostErr(NoLineAttribute("Literal")))
  {
    assert Truncate(5.0) == 5;
  }

  /** `closure.get_at(0, "this")`, what an initializer returns. */
  function ThisOf(frames: seq<Frame<Value>>, closure: nat): (o: Outcome<Value>)
    requires FramesOk(frames) && closure < |frames|
    ensures ValueOutOk(o, |frames|)
  {
    match GetAtSpec(frames, closure, 0, "this")
    case Err(m) => Thrown(HostErr(m))
    case Ok(None) => Normal(Nil)
    case Ok(Some(v)) => Normal(v)
  }

  /** The value of a call once its body has run: a Return's value, nil on
      normal completion, and the closure's "this" for an initializer
      either way; any other signal propagates. */
  function CallResult(frames: seq<Frame<Value>>, f: Value, body: Outcome<()>): (o: Outcome<Value>)
    requires f.Fn? && FramesOk(frames) && f.closure < |frames|
    ensures f.isInitializer && (body.Normal? || body.signal.Returning?) ==> o == ThisOf(frames, f.closure)
    ensures !f.isInitializer && body.Normal? ==> o == Normal(Nil)
    ensures !f.isInitializer && body.Thrown? && body.signal.Returning? ==> o == Normal(body.signal.value)
    ensures body.Thrown? && !body.signal.Returning? ==> o == Thrown(body.signal)
  {
    match body
    case Normal(_) => if f.isInitializer then ThisOf(frames, f.closure) else Normal(Nil)
    case Thrown(s) =>
      if s.Returning? then (if f.isInitializer then ThisOf(frames, f.closure) else Normal(s.value))
      else Thrown(s)
  }

  /** bind: a new environment enclosing the closure defines "this"; the
      bound function keeps the declaration and the initializer flag. */
  function Bind(st: State, f: Value, instance: Value): (r: (State, Value))
    requires StateOk(st) && f.Fn? && ValueOk(f, |st.frames|) && ValueOk(instance, |st.frames|)
    ensures StateOk(r.0) && r.0.env == st.env && |r.0.frames| == |st.frames| + 1
    ensures r.0.frames[..|st.frames|] == st.frames
    ensures r.1.Fn? && r.1.decl == f.decl && r.1.isInitializer == f.isInitializer
    ensures r.1.closure == |st.frames| && r.0.frames[r.1.closure] == Frame(map["this" := instance], Some(f.closure))
    ensures ValueOk(r.1, |r.0.frames|)
  {
    var env := |st.frames|;
    var frames1 := st.frames + [Frame(map[], Some(f.closure))];
    FramesOkPush(st.frames, f.closure);
    ValueOkMono(instance, |st.frames|, |frames1|);
    var frames2 := DefineIn(frames1, env, "this", instance);
    FramesOkDefine(frames1, env, "this", instance);
    assert frames2[..|st.frames|] == st.frames;
    (st.(frames := frames2, nextId := st.nextId + 1), Fn(st.nextId, f.decl, env, f.isInitializer))
  }

  // ---------------------------------------------------------------------
  // Evaluation
  // ---------------------------------------------------------------------

  function Eval(ctx: Ctx, st: State, e: Expr, fuel: nat): (r: (State, Outcome<Value>))
    requires StateOk(st)
    ensures Keeps(st, r.0) && ValueOutOk(r.1, |r.0.frames|)
    decreases fuel, 0
  {
    if fuel == 0 then (st, Thrown(OutOfFuel))
    else match e
      case Literal(l) => (st, Normal(LiteralValueOf(l)))
      case Grouping(x) => Eval(ctx, st, x, fuel - 1)
      case Variable(name, id) => (st, LookupVariable(ctx, st, name.lexeme, id))
      case Assign(name, id, value) => EvalAssign(ctx, st, name.lexeme, id, value, fuel - 1)
      case Unary(op, right) =>
        var r1 := Eval(ctx, st, right, fuel - 1);
        if r1.1.Thrown? then r1 else (r1.0, UnaryOp(op, r1.1.value))
      case Binary(left, op, right) => EvalBinary(ctx, st, left, op, right, fuel - 1)
      case Logical(left, op, right) => EvalLogical(ctx, st, left, op, right, fuel - 1)
      case Call(callee, paren, arguments) => EvalCall(ctx, st, callee, paren, arguments, fuel - 1)
      case ListExpr(elements) =>
        var r1 := EvalAll(ctx, st, elements, fuel - 1);
        (r1.0, if r1.1.Normal? then Normal(List(r1.1.value)) else Thrown(r1.1.signal))
      case Get(obj, index) => EvalGet(ctx, st, obj, index, fuel - 1)
  }

  /** visit_assign_expr: the value, then `assign_at` at the resolved depth
      or `assign` in the globals. */
  function EvalAssign(ctx: Ctx, st: State, name: string, id: nat, value: Expr, fuel: nat): (r: (State, Outcome<Value>))
    requires StateOk(st)
    ensures Keeps(st, r.0) && ValueOutOk(r.1, |r.0.frames|)
    decreases fuel, 0
  {
    if fuel == 0 then (st, Thrown(OutOfFuel))
    else
      var r1 := Eval(ctx, st, value, fuel - 1);
      if r1.1.Thrown? then r1
      else
        var st1, v := r1.0, r1.1.value;
        var written := if id in ctx.locals then AssignAtSpec(st1.frames, st1.env, ctx.locals[id], name, v)
                       else AssignIn(st1.frames, Globals, name, v);
        if written.Err? then (st1, Thrown(HostErr(written.error)))
        else
          AssignedOk(ctx, st1, name, id, v);
          (st1.(frames := written.value), Normal(v))
  }

  function EvalBinary(ctx: Ctx, st: State, left: Expr, op: Token, right: Expr, fuel: nat): (r: (State, Outcome<Value>))
    requires StateOk(st)
    ensures Keeps(st, r.0) && ValueOutOk(r.1, |r.0.frames|)
    decreases fuel, 0
  {
    if fuel == 0 then (st, Thrown(OutOfFuel))
    else
      var r1 := Eval(ctx, st, left, fuel - 1);
      if r1.1.Thrown? then r1
      else
        var r2 := Eval(ctx, r1.0, right, fuel - 1);
        if r2.1.Thrown? then r2
        else
          var o := BinaryOp(op, r1.1.value, r2.1.value, ctx.host);
          if o.Normal? then ValueOkMono(o.value, 0, |r2.0.frames|); (r2.0, o) else (r2.0, o)
  }

  /** visit_logical_expr: `or` yields a truthy left operand and `and` a
      falsy one without evaluating the right operand. */
  function EvalLogical(ctx: Ctx, st: State, left: Expr, op: Token, right: Expr, fuel: nat): (r: (State, Outcome<Value>))
    requires StateOk(st)
    ensures Keeps(st, r.0) && ValueOutOk(r.1, |r.0.frames|)
    decreases fuel, 0
  {
    if fuel == 0 then (st, Thrown(OutOfFuel))
    else
      var r1 := Eval(ctx, st, left, fuel - 1);
      if r1.1.Thrown? then r1
      else if op.kind == OR && IsTruthy(r1.1.value) then r1
      else if op.kind != OR && !IsTruthy(r1.1.value) then r1
      else Eval(ctx, r1.0, right, fuel - 1)
  }

  /** Short-circuit: when the left operand decides, the result is the left
      operand's value and state, whatever the right operand is. */
  lemma {:induction false} ShortCircuit(ctx: Ctx, st: State, left: Expr, op: Token, right: Expr, fuel: nat)
    requires StateOk(st) && fuel > 0
    requires var r1 := Eval(ctx, st, left, fuel - 1);
      r1.1.Normal? && (if op.kind == OR then IsTruthy(r1.1.value) else !IsTruthy(r1.1.value))
    ensures EvalLogical(ctx, st, left, op, right, fuel) == Eval(ctx, st, left, fuel - 1)
  {
  }

  /** Otherwise the result is the right operand's, evaluated after the left. */
  lemma {:induction false} LogicalFallsThrough(ctx: Ctx, st: State, left: Expr, op: Token, right: Expr, fuel: nat)
    requires StateOk(st) && fuel > 0
    requires var r1 := Eval(ctx, st, left, fuel - 1);
      r1.1.Normal? && (if op.kind == OR then !IsTruthy(r1.1.value) else IsTruthy(r1.1.value))
    ensures EvalLogical(ctx, st, left, op, right, fuel) == Eval(ctx, Eval(ctx, st, left, fuel - 1).0, right, fuel - 1)
  {
  }

  /** visit_list_expr and the argument loop of visit_call_expr: left to
      right, stopping at the first raised signal. */
  function EvalAll(ctx: Ctx, st: State, es: seq<Expr>, fuel: nat): (r: (State, Outcome<seq<Value>>))
    requires StateOk(st)
    ensures Keeps(st, r.0) && ValuesOutOk(r.1, |r.0.frames|)
    ensures r.1.Normal? ==> |r.1.value| == |es|
    decreases fuel, 0
  {
    if fuel == 0 then (st, Thrown(OutOfFuel))
    else if |es| == 0 then (st, Normal([]))
    else
      var r1 := Eval(ctx, st, es[0], fuel - 1);
      if r1.1.Thrown? then (r1.0, Thrown(r1.1.signal))
      else
        var r2 := EvalAll(ctx, r1.0, es[1..], fuel - 1);
        if r2.1.Thrown? then r2
        else
          ValueOkMono(r1.1.value, |r1.0.frames|, |r2.0.frames|);
          (r2.0, Normal([r1.1.value] + r2.1.value))
  }

  /** visit_get_expr: the object, then the index, then the checks. */
  function EvalGet(ctx: Ctx, st: State, obj: Expr, index: Expr, fuel: nat): (r: (State, Outcome<Value>))
    requires StateOk(st)
    ensures Keeps(st, r.0) && ValueOutOk(r.1, |r.0.frames|)
    decreases fuel, 0
  {
    if fuel == 0 then (st, Thrown(OutOfFuel))
    else
      var r1 := Eval(ctx, st, obj, fuel - 1);
      if r1.1.Thrown? then r1
      else
        var r2 := Eval(ctx, r1.0, index, fuel - 1);
        if r2.1.Thrown? then r2
        else
          ValueOkMono(r1.1.value, |r1.0.frames|, |r2.0.frames|);
          (r2.0, GetIndex(r1.1.value, r2.1.value))
  }

  /** visit_call_expr: the callee, then the arguments left to right, then
      the checks and the call. */
  function EvalCall(ctx: Ctx, st: State, callee: Expr, paren: Token, arguments: seq<Expr>, fuel: nat): (r: (State, Outcome<Value>))
    requires StateOk(st)
    ensures Keeps(st, r.0) && ValueOutOk(r.1, |r.0.frames|)
    decreases fuel, 0
  {
    if fuel == 0 then (st, Thrown(OutOfFuel))
    else
      var r1 := Eval(ctx, st, callee, fuel - 1);
      if r1.1.Thrown? then r1
      else
        var r2 := EvalAll(ctx, r1.0, arguments, fuel - 1);
        if r2.1.Thrown? then (r2.0, Thrown(r2.1.signal))
        else
          ValueOkMono(r1.1.value, |r1.0.frames|, |r2.0.frames|);
          CallValue(ctx, r2.0, r1.1.value, r2.1.value, paren, fuel - 1)
  }

  /** The checks of visit_call_expr, then the call itself: a non-callable
      value or a wrong number of arguments is a runtime error at the
      closing parenthesis. */
  function CallValue(ctx: Ctx, st: State, f: Value, args: seq<Value>, paren: Token, fuel: nat): (r: (State, Outcome<Value>))
    requires StateOk(st) && ValueOk(f, |st.frames|) && ValuesOk(args, |st.frames|)
    ensures Keeps(st, r.0) && ValueOutOk(r.1, |r.0.frames|)
    ensures !IsCallable(f) ==> r == (st, Thrown(RuntimeErr("Can only call functions and classes.", Some(paren.line))))
    ensures IsCallable(f) && |args| != Arity(f) ==>
      r == (st, Thrown(RuntimeErr("Expected " + NatToString(Arity(f)) + " arguments but got " + NatToString(|args|) + ".", Some(paren.line))))
    ensures f.Clock? && |args| == 0 ==> r == (st, Normal(Num(ctx.host.now)))
    decreases fuel, 1
  {
    if !IsCallable(f) then (st, Thrown(RuntimeErr("Can only call functions and classes.", Some(paren.line))))
    else if |args| != Arity(f) then
      (st, Thrown(RuntimeErr("Expected " + NatToString(Arity(f)) + " arguments but got " + NatToString(|args|) + ".", Some(paren.line))))
    else if f.Clock? then (st, Normal(Num(ctx.host.now)))
    else CallFunction(ctx, st, f, args, fuel)
  }

  /** FunctionObj.call: a new environment enclosing the closure binds the
      parameters to the arguments, and the body runs there as a block. */
  function CallFunction(ctx: Ctx, st: State, f: Value, args: seq<Value>, fuel: nat): (r: (State, Outcome<Value>))
    requires StateOk(st) && f.Fn? && f.closure < |st.frames| && |args| == |f.decl.params| && ValuesOk(args, |st.frames|)
    ensures Keeps(st, r.0) && ValueOutOk(r.1, |r.0.frames|)
    decreases fuel, 0
  {
    if fuel == 0 then (st, Thrown(OutOfFuel))
    else
      var env := |st.frames|;
      var frames1 := st.frames + [Frame(map[], Some(f.closure))];
      FramesOkPush(st.frames, f.closure);
      ValuesOkMono(args, |st.frames|, |frames1|);
      BindParamsOk(frames1, env, f.decl.params, args);
      var st1 := st.(frames := CallFrames(st.frames, f, args));
      var r1 := ExecBlock(ctx, st1, f.decl.body, env, fuel - 1);
      (r1.0, CallResult(r1.0.frames, f, r1.1))
  }

  /** The environments at the start of a call's body: a new one enclosing
      the closure, holding the parameters. */
  function CallFrames(frames: seq<Frame<Value>>, f: Value, args: seq<Value>): (r: seq<Frame<Value>>)
    requires Linked(frames) && f.Fn? && f.closure < |frames| && |args| == |f.decl.params|
    ensures Linked(r) && |r| == |frames| + 1
  {
    BindParams(frames + [Frame(map[], Some(f.closure))], |frames|, f.decl.params, args)
  }

  /** The call environment encloses the closure and binds parameter i to
      argument i (when the names are distinct, as the resolver ensures);
      the existing environments are unchanged. */
  lemma {:induction false} CallBindsParameters(frames: seq<Frame<Value>>, f: Value, args: seq<Value>)
    requires Linked(frames) && f.Fn? && f.closure < |frames| && |args| == |f.decl.params|
    requires forall i, j :: 0 <= i < j < |f.decl.params| ==> f.decl.params[i].lexeme != f.decl.params[j].lexeme
    ensures var r := CallFrames(frames, f, args);
      && r[..|frames|] == frames
      && r[|frames|].enclosing == Some(f.closure)
      && forall i :: 0 <= i < |args| ==> Lookup(r, |frames|, f.decl.params[i].lexeme) == Some(args[i])
  {
    var frames1 := frames + [Frame(map[], Some(f.closure))];
    var r := CallFrames(frames, f, args);
    BindParamsFrames(frames1, |frames|, f.decl.params, args);
    assert r[..|frames|] == frames;
    forall i | 0 <= i < |args|
      ensures Lookup(r, |frames|, f.decl.params[i].lexeme) == Some(args[i])
    {
      BindParamsValue(frames1, |frames|, f.decl.params, args, i);
    }
  }

  /** execute_block: runs the statements in `env` and restores the
      previous environment whatever the outcome. */
  function ExecBlock(ctx: Ctx, st: State, statements: seq<Option<Stmt>>, env: nat, fuel: nat): (r: (State, Outcome<()>))
    requires StateOk(st) && env < |st.frames|
    ensures Keeps(st, r.0) && UnitOutOk(r.1, |r.0.frames|)
    ensures r.0.env == st.env
    decreases fuel, 1
  {
    var r1 := ExecSeq(ctx, st.(env := env), statements, fuel);
    (r1.0.(env := st.env), r1.1)
  }

  /** The statements in order, skipping the ones that failed to parse,
      stopping at the first raised signal. */
  function ExecSeq(ctx: Ctx, st: State, statements: seq<Option<Stmt>>, fuel: nat): (r: (State, Outcome<()>))
    requires StateOk(st)
    ensures Keeps(st, r.0) && UnitOutOk(r.1, |r.0.frames|)
    decreases fuel, 0
  {
    if fuel == 0 then (st, Thrown(OutOfFuel))
    else if |statements| == 0 then (st, Normal(()))
    else if statements[0].None? then ExecSeq(ctx, st, statements[1..], fuel - 1)
    else
      var r1 := Exec(ctx, st, statements[0].value, fuel - 1);
      if r1.1.Thrown? then r1 else ExecSeq(ctx, r1.0, statements[1..], fuel - 1)
  }

  function Exec(ctx: Ctx, st: State, s: Stmt, fuel: nat): (r: (State, Outcome<()>))
    requires StateOk(st)
    ensures Keeps(st, r.0) && UnitOutOk(r.1, |r.0.frames|)
    decreases fuel, 0
  {
    if fuel == 0 then (st, Thrown(OutOfFuel))
    else match s
      case Expression(e) =>
        var r1 := Eval(ctx, st, e, fuel - 1);
        (r1.0, if r1.1.Thrown? then Thrown(r1.1.signal) else Normal(()))
      case Print(e) =>
        var r1 := Eval(ctx, st, e, fuel - 1);
        if r1.1.Thrown? then (r1.0, Thrown(r1.1.signal))
        else (r1.0.(out := r1.0.out + [Stringify(r1.1.value, ctx.host)]), Normal(()))
      case Var(name, initializer) => ExecVar(ctx, st, name.lexeme, initializer, fuel - 1)
      case Block(statements) =>
        FramesOkPush(st.frames, st.env);
        var st1 := st.(frames := st.frames + [Frame(map[], Some(st.env))]);
        ExecBlock(ctx, st1, statements, |st.frames|, fuel - 1)
      case If(condition, thenBranch, elseBranch) =>
        var r1 := Eval(ctx, st, condition, fuel - 1);
        if r1.1.Thrown? then (r1.0, Thrown(r1.1.signal))
        else if IsTruthy(r1.1.value) then Exec(ctx, r1.0, thenBranch, fuel - 1)
        else if elseBranch.Some? then Exec(ctx, r1.0, elseBranch.value, fuel - 1)
        else (r1.0, Normal(()))
      case While(condition, body) => ExecWhile(ctx, st, condition, body, fuel - 1)
      case Function(name, params, body) =>
        var f := Fn(st.nextId, FnDecl(name, params, body), st.env, false);
        FramesOkDefine(st.frames, st.env, name.lexeme, f);
        (st.(frames := DefineIn(st.frames, st.env, name.lexeme, f), nextId := st.nextId + 1), Normal(()))
      case Return(_, result) =>
        if result.None? then (st, Thrown(Returning(Nil)))
        else
          var r1 := Eval(ctx, st, result.value, fuel - 1);
          (r1.0, if r1.1.Thrown? then Thrown(r1.1.signal) else Thrown(Returning(r1.1.value)))
  }

  /** visit_var_stmt: nil or the initializer's value, defined in the
      current environment. */
  function ExecVar(ctx: Ctx, st: State, name: string, initializer: Option<Expr>, fuel: nat): (r: (State, Outcome<()>))
    requires StateOk(st)
    ensures Keeps(st, r.0) && UnitOutOk(r.1, |r.0.frames|)
    decreases fuel, 0
  {
    if fuel == 0 then (st, Thrown(OutOfFuel))
    else
      var r1 := if initializer.Some? then Eval(ctx, st, initializer.value, fuel - 1) else (st, Normal(Nil));
      if r1.1.Thrown? then (r1.0, Thrown(r1.1.signal))
      else
        FramesOkDefine(r1.0.frames, r1.0.env, name, r1.1.value);
        (r1.0.(frames := DefineIn(r1.0.frames, r1.0.env, name, r1.1.value)), Normal(()))
  }

  /** visit_while_stmt: the body runs while the condition is truthy. */
  function ExecWhile(ctx: Ctx, st: State, condition: Expr, body: Stmt, fuel: nat): (r: (State, Outcome<()>))
    requires StateOk(st)
    ensures Keeps(st, r.0) && UnitOutOk(r.1, |r.0.frames|)
    decreases fuel, 0
  {
    if fuel == 0 then (st, Thrown(OutOfFuel))
    else
      var r1 := Eval(ctx, st, condition, fuel - 1);
      if r1.1.Thrown? then (r1.0, Thrown(r1.1.signal))
      else if !IsTruthy(r1.1.value) then (r1.0, Normal(()))
      else
        var r2 := Exec(ctx, r1.0, body, fuel - 1);
        if r2.1.Thrown? then r2 else ExecWhile(ctx, r2.0, condition, body, fuel - 1)
  }

  // ---------------------------------------------------------------------
  // interpret
  // ---------------------------------------------------------------------

  /** The text of a runtime error: the message, then the line. */
  function RuntimeErrorText(message: string, line: Option<nat>): string
  {
    if line.Some? then message + "\n[line " + NatToString(line.value) + "]" else message
  }

  /** The loop of `interpret`: each statement with the full fuel, stopping
      at the first raised signal. */
  function RunAll(ctx: Ctx, st: State, statements: seq<Option<Stmt>>, fuel: nat): (r: (State, Outcome<()>))
    requires StateOk(st)
    ensures Keeps(st, r.0)
    decreases |statements|
  {
    if |statements| == 0 then (st, Normal(()))
    else if statements[0].None? then RunAll(ctx, st, statements[1..], fuel)
    else
      var r1 := Exec(ctx, st, statements[0].value, fuel);
      if r1.1.Thrown? then r1 else RunAll(ctx, r1.0, statements[1..], fuel)
  }

  /** interpret: a runtime error is reported on the output and ends the
      run; any other raised signal escapes. */
  function InterpretSpec(ctx: Ctx, st: State, statements: seq<Option<Stmt>>, fuel: nat): (r: (State, Option<Signal>))
    requires StateOk(st)
    ensures StateOk(r.0)
    ensures r.1.Some? ==> !r.1.value.RuntimeErr?
    ensures var run := RunAll(ctx, st, statements, fuel);
      run.1.Thrown? && run.1.signal.RuntimeErr? ==>
        r.0.out == run.0.out + ["Runtime Error: " + RuntimeErrorText(run.1.signal.message, run.1.signal.line)]
  {
    var run := RunAll(ctx, st, statements, fuel);
    match run.1
    case Normal(_) => (run.0, None)
    case Thrown(s) =>
      if s.RuntimeErr? then
        (run.0.(out := run.0.out + ["Runtime Error: " + RuntimeErrorText(s.message, s.line)]), None)
      else (run.0, Some(s))
  }

  // ---------------------------------------------------------------------
  // The interpreter object
  // ---------------------------------------------------------------------

  class Interpreter {
    const host: Host
    var frames: seq<Frame<Value>>
    var environment: nat
    var locals: map<nat, nat>
    var output: seq<string>
    var nextId: nat

    function CurrentState(): State
      reads this
    {
      State(frames, environment, output, nextId)
    }

    ghost predicate Valid()
      reads this
    {
      StateOk(CurrentState())
    }

    /** The globals hold the native `clock`, and are the current
        environment. */
    constructor (host: Host)
      ensures Valid() && this.host == host
      ensures frames == [Frame(map["clock" := Clock], None)] && environment == Globals
      ensures locals == map[] && output == []
    {
      this.host := host;
      frames := [Frame(map["clock" := Clock], None)];
      environment := Globals;
      locals := map[];
      output := [];
      nextId := 0;
    }

    /** resolve: records the depth of one variable use. */
    method Resolve(id: nat, depth: nat)
      modifies this
      ensures locals == old(locals)[id := depth]
      ensures CurrentState() == old(CurrentState())
    {
      locals := locals[id := depth];
    }

    /** execute_block: swaps in `env`, runs the statements and swaps the
        previous environment back, whatever the outcome. */
    method ExecuteBlock(statements: seq<Option<Stmt>>, env: nat, fuel: nat) returns (o: Outcome<()>)
      requires Valid() && env < |frames|
      modifies this
      ensures Valid() && environment == old(environment) && locals == old(locals)
      ensures (CurrentState(), o) == ExecBlock(Ctx(locals, host), old(CurrentState()), statements, env, fuel)
    {
      var previous := environment;
      environment := env;
      var r := ExecSeq(Ctx(locals, host), CurrentState(), statements, fuel);
      frames, output, nextId := r.0.frames, r.0.out, r.0.nextId;
      environment := previous;
      o := r.1;
    }

    /** interpret: each statement in turn; a runtime error is reported
        and ends the loop; any other signal escapes and is returned. */
    method Interpret(statements: seq<Option<Stmt>>, fuel: nat) returns (escaped: Option<Signal>)
      requires Valid()
      modifies this
      ensures Valid() && locals == old(locals)
      ensures (CurrentState(), escaped) == InterpretSpec(Ctx(locals, host), old(CurrentState()), statements, fuel)
    {
      var ctx := Ctx(locals, host);
      ghost var st0 := CurrentState();
      var i := 0;
      while i < |statements|
        invariant i <= |statements| && Valid() && locals == ctx.locals
        invariant RunAll(ctx, CurrentState(), statements[i..], fuel) == RunAll(ctx, st0, statements, fuel)
      {
        assert statements[i..][1..] == statements[i + 1..];
        if statements[i].Some? {
          var r := Exec(ctx, CurrentState(), statements[i].value, fuel);
          frames, environment, output, nextId := r.0.frames, r.0.env, r.0.out, r.0.nextId;
          if r.1.Thrown? {
            var s := r.1.signal;
            if s.RuntimeErr? {
              output := output + ["Runtime Error: " + RuntimeErrorText(s.message, s.line)];
              return None;
            }
            return Some(s);
          }
        }
        i := i + 1;
      }
      return None;
    }
  }
}
