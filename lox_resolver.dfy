/** Static resolution of local variables (interpreter/interpreter/resolver.py).

    The resolver walks the tree with a stack of scopes, one map per block
    or function body, from a name to whether its declaration is finished.
    For every variable use it finds in a scope it records how many scopes
    lie between the use and that scope, keyed by the node's id; `locals`
    stands for the interpreter's `locals` dict, which the Python resolver
    fills through `interpreter.resolve`. An error ends the walk, as the
    raised Exception does; the scope stack is then left as it was at the
    point of failure. */
module LoxResolver {
  import opened Base
  import opened LoxTokens
  import opened LoxAst

  datatype FunctionType = NONE | FUNCTION | INITIALIZER | METHOD

  type Scope = map<string, bool>

  /** The depth `resolve_local` records for `name`: the number of scopes
      above the innermost one that holds it. */
  function Innermost(scopes: seq<Scope>, name: string): (r: Option<nat>)
    ensures r.Some? ==> r.value < |scopes| && name in scopes[|scopes| - 1 - r.value]
    ensures r.Some? ==> forall j :: |scopes| - 1 - r.value < j < |scopes| ==> name !in scopes[j]
    ensures r.None? ==> forall j :: 0 <= j < |scopes| ==> name !in scopes[j]
    decreases |scopes|
  {
    if |scopes| == 0 then None
    else if name in scopes[|scopes| - 1] then Some(0)
    else
      var d := Innermost(scopes[..|scopes| - 1], name);
      if d.Some? then Some(d.value + 1) else None
  }

  function AlreadyDeclared(name: string): string
  {
    "Variable with name '" + name + "' already declared in this scope."
  }

  function OwnInitializer(name: string): string
  {
    "Cannot read local variable '" + name + "' in its own initializer."
  }

  const TopLevelReturn: string := "Cannot return from top-level code."
  const InitializerReturn: string := "Cannot return a value from an initializer."

  /** Python's `if self.scopes and name in self.scopes[-1] and
      self.scopes[-1][name] is False`: the name is declared but not yet
      defined in the innermost scope. */
  predicate ReadsOwnInitializer(scopes: seq<Scope>, name: string)
  {
    |scopes| > 0 && name in scopes[|scopes| - 1] && !scopes[|scopes| - 1][name]
  }

  /** The innermost scope with `name` marked declared (false) or defined
      (true). */
  function WithTop(scopes: seq<Scope>, name: string, defined: bool): (r: seq<Scope>)
    requires |scopes| > 0
    ensures |r| == |scopes| && r[..|r| - 1] == scopes[..|scopes| - 1]
    ensures r[|r| - 1] == scopes[|scopes| - 1][name := defined]
  {
    scopes[|scopes| - 1 := scopes[|scopes| - 1][name := defined]]
  }

  // ---------------------------------------------------------------------
  // The walk as functions of the resolver's state
  // ---------------------------------------------------------------------

  /** The resolver's state: the scope stack, the enclosing function type
      and the depths recorded so far. */
  datatype RState = RState(scopes: seq<Scope>, fn: FunctionType, locals: map<nat, nat>)

  /** The outcome of a walk and the state it leaves; after an error, the
      state at the point where the exception was raised. */
  datatype Walk = Walk(outcome: Result<(), string>, st: RState)

  /** The depth recorded for `id`, if any. */
  function Recorded(locals: map<nat, nat>, id: nat): Option<nat>
  {
    if id in locals then Some(locals[id]) else None
  }

  /** A successful statement walk leaves the stack as deep as it found it,
      every scope but the innermost unchanged, and the function type
      restored; recorded depths only grow. */
  predicate Restored(before: RState, after: RState)
  {
    && |after.scopes| == |before.scopes|
    && (|before.scopes| > 0 ==> after.scopes[..|before.scopes| - 1] == before.scopes[..|before.scopes| - 1])
    && after.fn == before.fn
    && before.locals.Keys <= after.locals.Keys
  }

  /** resolve_local: the depth of the innermost scope holding the name is
      recorded for `id`; nothing is recorded for a global. */
  function LocalIn(st: RState, id: nat, name: string): (r: RState)
    ensures r.scopes == st.scopes && r.fn == st.fn
    ensures Innermost(st.scopes, name).Some? ==> r.locals == st.locals[id := Innermost(st.scopes, name).value]
    ensures Innermost(st.scopes, name).None? ==> r.locals == st.locals
  {
    match Innermost(st.scopes, name)
    case Some(d) => st.(locals := st.locals[id := d])
    case None => st
  }

  /** declare: nothing at global scope, an error for a name already in
      the innermost scope, else the name declared but not defined. */
  function DeclareIn(st: RState, name: string): (w: Walk)
    ensures w.st.fn == st.fn && w.st.locals == st.locals && |w.st.scopes| == |st.scopes|
    ensures |st.scopes| > 0 ==> w.st.scopes[..|st.scopes| - 1] == st.scopes[..|st.scopes| - 1]
    ensures w.outcome.Err? <==> |st.scopes| > 0 && name in st.scopes[|st.scopes| - 1]
    ensures w.outcome.Err? ==> w.outcome.error == AlreadyDeclared(name) && w.st == st
  {
    if |st.scopes| == 0 then Walk(Ok(()), st)
    else if name in st.scopes[|st.scopes| - 1] then Walk(Err(AlreadyDeclared(name)), st)
    else Walk(Ok(()), st.(scopes := WithTop(st.scopes, name, false)))
  }

  /** define: nothing at global scope, else the name defined in the
      innermost scope. */
  function DefineIn(st: RState, name: string): (r: RState)
    ensures r.fn == st.fn && r.locals == st.locals && |r.scopes| == |st.scopes|
    ensures |st.scopes| > 0 ==> r.scopes[..|st.scopes| - 1] == st.scopes[..|st.scopes| - 1]
    ensures |st.scopes| > 0 ==> name in r.scopes[|r.scopes| - 1] && r.scopes[|r.scopes| - 1][name]
  {
    if |st.scopes| == 0 then st else st.(scopes := WithTop(st.scopes, name, true))
  }

  /** The ids of the variable uses and assignments in an expression. */
  function Ids(e: Expr): set<nat>
    decreases ExprSize(e), 0
  {
    match e
    case Binary(l, _, r) => Ids(l) + Ids(r)
    case Grouping(x) => Ids(x)
    case Literal(_) => {}
    case Unary(_, r) => Ids(r)
    case Variable(_, id) => {id}
    case Assign(_, id, v) => Ids(v) + {id}
    case Logical(l, _, r) => Ids(l) + Ids(r)
    case Call(c, _, args) => Ids(c) + IdsAll(args)
    case ListExpr(es) => IdsAll(es)
    case Get(o, i) => Ids(o) + Ids(i)
  }

  function IdsAll(es: seq<Expr>): set<nat>
    decreases ExprsSize(es), 1
  {
    if |es| == 0 then {} else Ids(es[0]) + IdsAll(es[1..])
  }

  /** visit_variable_expr. */
  function VariableWalk(st: RState, name: string, id: nat): (w: Walk)
  {
    if ReadsOwnInitializer(st.scopes, name) then Walk(Err(OwnInitializer(name)), st)
    else Walk(Ok(()), LocalIn(st, id, name))
  }

  /** Resolving an expression: its subexpressions left to right, then, for
      a variable or an assignment, its own use. The scopes and the function
      type never change, and only the depths of the expression's own ids
      do. */
  function ExprWalk(st: RState, e: Expr): (w: Walk)
    ensures w.st.scopes == st.scopes && w.st.fn == st.fn
    ensures st.locals.Keys <= w.st.locals.Keys
    ensures forall k :: k !in Ids(e) ==> Recorded(w.st.locals, k) == Recorded(st.locals, k)
    decreases ExprSize(e), 0
  {
    match e
    case Assign(name, id, value) =>
      var v := ExprWalk(st, value);
      if v.outcome.Err? then v else v.(st := LocalIn(v.st, id, name.lexeme))
    case Binary(left, _, right) =>
      var a := ExprWalk(st, left);
      if a.outcome.Err? then a else ExprWalk(a.st, right)
    case Logical(left, _, right) =>
      var a := ExprWalk(st, left);
      if a.outcome.Err? then a else ExprWalk(a.st, right)
    case Call(callee, _, arguments) =>
      var a := ExprWalk(st, callee);
      if a.outcome.Err? then a else ExprsWalk(a.st, arguments)
    case Get(obj, index) =>
      var a := ExprWalk(st, obj);
      if a.outcome.Err? then a else ExprWalk(a.st, index)
    case Grouping(inner) => ExprWalk(st, inner)
    case ListExpr(elements) => ExprsWalk(st, elements)
    case Literal(_) => Walk(Ok(()), st)
    case Unary(_, right) => ExprWalk(st, right)
    case Variable(name, id) => VariableWalk(st, name.lexeme, id)
  }

  /** Expressions in order, stopping at the first error. */
  function ExprsWalk(st: RState, es: seq<Expr>): (w: Walk)
    ensures w.st.scopes == st.scopes && w.st.fn == st.fn
    ensures st.locals.Keys <= w.st.locals.Keys
    ensures forall k :: k !in IdsAll(es) ==> Recorded(w.st.locals, k) == Recorded(st.locals, k)
    decreases ExprsSize(es), 1
  {
    if |es| == 0 then Walk(Ok(()), st)
    else
      var a := ExprWalk(st, es[0]);
      if a.outcome.Err? then a else ExprsWalk(a.st, es[1..])
  }

  /** visit_return_stmt. */
  function ReturnWalk(st: RState, value: Option<Expr>): (w: Walk)
    ensures st.fn == NONE ==> w == Walk(Err(TopLevelReturn), st)
    ensures st.fn == INITIALIZER && value.Some? ==> w == Walk(Err(InitializerReturn), st)
    ensures w.outcome.Ok? ==> w.st.scopes == st.scopes && w.st.fn == st.fn && st.locals.Keys <= w.st.locals.Keys
  {
    if st.fn == NONE then Walk(Err(TopLevelReturn), st)
    else if value.Some? then
      if st.fn == INITIALIZER then Walk(Err(InitializerReturn), st) else ExprWalk(st, value.value)
    else Walk(Ok(()), st)
  }

  /** visit_var_stmt: declare, resolve the initializer, define. */
  function VarWalk(st: RState, name: string, initializer: Option<Expr>): (w: Walk)
    ensures |st.scopes| > 0 && name in st.scopes[|st.scopes| - 1] ==> w == Walk(Err(AlreadyDeclared(name)), st)
    ensures w.outcome.Ok? ==> Restored(st, w.st)
    ensures w.outcome.Ok? && |st.scopes| > 0 ==> name in w.st.scopes[|st.scopes| - 1] && w.st.scopes[|st.scopes| - 1][name]
  {
    var d := DeclareIn(st, name);
    if d.outcome.Err? then d
    else if initializer.Some? then
      var a := ExprWalk(d.st, initializer.value);
      if a.outcome.Err? then a else a.(st := DefineIn(a.st, name))
    else d.(st := DefineIn(d.st, name))
  }

  /** The parameter loop of resolve_function: each name declared, then
      defined. */
  function ParamsWalk(st: RState, params: seq<Token>): (w: Walk)
    ensures w.st.fn == st.fn && w.st.locals == st.locals && |w.st.scopes| == |st.scopes|
    ensures |st.scopes| > 0 ==> w.st.scopes[..|st.scopes| - 1] == st.scopes[..|st.scopes| - 1]
    decreases |params|
  {
    if |params| == 0 then Walk(Ok(()), st)
    else
      var d := DeclareIn(st, params[0].lexeme);
      if d.outcome.Err? then d else ParamsWalk(DefineIn(d.st, params[0].lexeme), params[1..])
  }

  /** resolve_function: a fresh scope holding the parameters, the body in
      it with the given function type, then the scope closed and the
      enclosing type restored. */
  function FunctionWalk(st: RState, params: seq<Token>, body: seq<Option<Stmt>>, kind: FunctionType): (w: Walk)
    ensures w.outcome.Ok? ==> w.st.scopes == st.scopes && w.st.fn == st.fn && st.locals.Keys <= w.st.locals.Keys
    decreases StmtsSize(body), 2, 0
  {
    var p := ParamsWalk(RState(st.scopes + [map[]], kind, st.locals), params);
    if p.outcome.Err? then p
    else
      var b := StmtsWalk(p.st, body);
      if b.outcome.Err? then b
      else
        assert b.st.scopes[..|st.scopes|] == p.st.scopes[..|st.scopes|] == st.scopes;
        b.(st := RState(b.st.scopes[..|st.scopes|], st.fn, b.st.locals))
  }

  /** visit_block_stmt: the statements in a fresh scope, which is closed
      again after them. */
  function BlockWalk(st: RState, statements: seq<Option<Stmt>>): (w: Walk)
    ensures w.outcome.Ok? ==> w.st.scopes == st.scopes && w.st.fn == st.fn && st.locals.Keys <= w.st.locals.Keys
    decreases StmtsSize(statements), 3, 0
  {
    var b := StmtsWalk(st.(scopes := st.scopes + [map[]]), statements);
    if b.outcome.Err? then b
    else
      assert b.st.scopes[..|st.scopes|] == st.scopes;
      b.(st := b.st.(scopes := b.st.scopes[..|st.scopes|]))
  }

  /** visit_if_stmt: the condition, the then branch and, when there is
      one, the else branch. */
  function IfWalk(st: RState, condition: Expr, thenBranch: Stmt, elseBranch: Option<Stmt>): (w: Walk)
    ensures w.outcome.Ok? ==> Restored(st, w.st)
    decreases StmtSize(If(condition, thenBranch, elseBranch)), 0, 0
  {
    var a := ExprWalk(st, condition);
    if a.outcome.Err? then a
    else
      var b := StmtWalk(a.st, thenBranch);
      if b.outcome.Err? || elseBranch.None? then b else StmtWalk(b.st, elseBranch.value)
  }

  /** The walk of one statement. */
  function StmtWalk(st: RState, stmt: Stmt): (w: Walk)
    ensures w.outcome.Ok? ==> Restored(st, w.st)
    ensures w.outcome.Ok? && stmt.Block? ==> w.st.scopes == st.scopes
    decreases StmtSize(stmt), 0, 1
  {
    match stmt
    case Block(statements) => BlockWalk(st, statements)
    case Expression(e) => ExprWalk(st, e)
    case Print(e) => ExprWalk(st, e)
    case Function(name, params, body) =>
      var d := DeclareIn(st, name.lexeme);
      if d.outcome.Err? then d else FunctionWalk(DefineIn(d.st, name.lexeme), params, body, FUNCTION)
    case If(condition, thenBranch, elseBranch) => IfWalk(st, condition, thenBranch, elseBranch)
    case Return(_, value) => ReturnWalk(st, value)
    case Var(name, initializer) => VarWalk(st, name.lexeme, initializer)
    case While(condition, body) =>
      var a := ExprWalk(st, condition);
      if a.outcome.Err? then a else StmtWalk(a.st, body)
  }

  /** resolve: the statements in order, skipping the ones that failed to
      parse, stopping at the first error. */
  function StmtsWalk(st: RState, statements: seq<Option<Stmt>>): (w: Walk)
    ensures w.outcome.Ok? ==> Restored(st, w.st)
    decreases StmtsSize(statements), 1, |statements|
  {
    if |statements| == 0 then Walk(Ok(()), st)
    else
      assert StmtsSize(statements) == OptStmtSize(statements[0]) + StmtsSize(statements[1..]);
      var a := match statements[0]
        case Some(s) => StmtWalk(st, s)
        case None => Walk(Ok(()), st);
      if a.outcome.Err? then a else StmtsWalk(a.st, statements[1..])
  }

  class Resolver {
    var scopes: seq<Scope>
    var currentFunction: FunctionType
    var locals: map<nat, nat>

    constructor ()
      ensures State() == RState([], NONE, map[])
    {
      scopes := [];
      currentFunction := NONE;
      locals := map[];
    }

    /** The resolver's fields as one value. */
    ghost function State(): RState
      reads this
    {
      RState(scopes, currentFunction, locals)
    }

    /** resolve: each statement in turn, skipping the ones that failed to
        parse. */
    method ResolveStmts(statements: seq<Option<Stmt>>) returns (r: Result<(), string>)
      modifies this
      ensures Walk(r, State()) == StmtsWalk(old(State()), statements)
      decreases StmtsSize(statements), 1
    {
      var i := 0;
      while i < |statements|
        invariant i <= |statements|
        invariant StmtsWalk(State(), statements[i..]) == StmtsWalk(old(State()), statements)
      {
        StmtsSizeElement(statements, i);
        assert statements[i..][1..] == statements[i + 1..];
        if statements[i].Some? {
          var s := ResolveStmt(statements[i].value);
          if s.Err? {
            return s;
          }
        }
        i := i + 1;
      }
      return Ok(());
    }

    method ResolveStmt(stmt: Stmt) returns (r: Result<(), string>)
      modifies this
      ensures Walk(r, State()) == StmtWalk(old(State()), stmt)
      decreases StmtSize(stmt), 0
    {
      match stmt
      case Block(statements) =>
        BeginScope();
        r := ResolveStmts(statements);
        if r.Ok? {
          EndScope();
        }
      case Expression(e) =>
        r := ResolveExpr(e);
      case Print(e) =>
        r := ResolveExpr(e);
      case Function(name, params, body) =>
        r := Declare(name.lexeme);
        if r.Ok? {
          Define(name.lexeme);
          r := ResolveFunction(params, body, FUNCTION);
        }
      case If(condition, thenBranch, elseBranch) =>
        r := ResolveExpr(condition);
        if r.Err? {
          return;
        }
        r := ResolveStmt(thenBranch);
        if r.Err? {
          return;
        }
        if elseBranch.Some? {
          r := ResolveStmt(elseBranch.value);
        }
      case Return(_, value) =>
        r := ResolveReturn(value);
      case Var(name, initializer) =>
        r := ResolveVar(name.lexeme, initializer);
      case While(condition, body) =>
        r := ResolveExpr(condition);
        if r.Err? {
          return;
        }
        r := ResolveStmt(body);
    }

    /** visit_return_stmt: a return outside any function, or a value
        returned from an initializer, is an error. */
    method ResolveReturn(value: Option<Expr>) returns (r: Result<(), string>)
      modifies this
      ensures Walk(r, State()) == ReturnWalk(old(State()), value)
      decreases if value.Some? then ExprSize(value.value) + 1 else 1, 0
    {
      if currentFunction == NONE {
        return Err(TopLevelReturn);
      }
      if value.Some? {
        if currentFunction == INITIALIZER {
          return Err(InitializerReturn);
        }
        r := ResolveExpr(value.value);
        return;
      }
      return Ok(());
    }

    /** visit_var_stmt: the name is declared before the initializer is
        resolved and defined after it. */
    method ResolveVar(name: string, initializer: Option<Expr>) returns (r: Result<(), string>)
      modifies this
      ensures Walk(r, State()) == VarWalk(old(State()), name, initializer)
      decreases if initializer.Some? then ExprSize(initializer.value) + 1 else 1, 0
    {
      r := Declare(name);
      if r.Err? {
        return;
      }
      if initializer.Some? {
        r := ResolveExpr(initializer.value);
        if r.Err? {
          return;
        }
      }
      Define(name);
    }

    /** resolve_function: the parameters are declared and defined in a
        fresh scope, the body is resolved in it, and the enclosing
        function type is restored. */
    method ResolveFunction(params: seq<Token>, body: seq<Option<Stmt>>, kind: FunctionType) returns (r: Result<(), string>)
      modifies this
      ensures Walk(r, State()) == FunctionWalk(old(State()), params, body, kind)
      decreases StmtsSize(body), 2
    {
      var enclosing := currentFunction;
      currentFunction := kind;
      BeginScope();
      ghost var opening := State();
      var i := 0;
      while i < |params|
        invariant i <= |params|
        invariant ParamsWalk(State(), params[i..]) == ParamsWalk(opening, params)
      {
        assert params[i..][1..] == params[i + 1..];
        r := Declare(params[i].lexeme);
        if r.Err? {
          return;
        }
        Define(params[i].lexeme);
        i := i + 1;
      }
      r := ResolveStmts(body);
      if r.Err? {
        return;
      }
      EndScope();
      currentFunction := enclosing;
    }

    method ResolveExprs(es: seq<Expr>) returns (r: Result<(), string>)
      modifies this
      ensures Walk(r, State()) == ExprsWalk(old(State()), es)
      decreases ExprsSize(es), 1
    {
      var i := 0;
      while i < |es|
        invariant i <= |es|
        invariant ExprsWalk(State(), es[i..]) == ExprsWalk(old(State()), es)
      {
        ExprsSizeElement(es, i);
        assert es[i..][1..] == es[i + 1..];
        r := ResolveExpr(es[i]);
        if r.Err? {
          return;
        }
        i := i + 1;
      }
      return Ok(());
    }

    method ResolveExpr(e: Expr) returns (r: Result<(), string>)
      modifies this
      ensures Walk(r, State()) == ExprWalk(old(State()), e)
      decreases ExprSize(e), 0
    {
      match e
      case Assign(name, id, value) =>
        r := ResolveExpr(value);
        if r.Ok? {
          ResolveLocal(id, name.lexeme);
        }
      case Binary(left, _, right) =>
        r := ResolveExpr(left);
        if r.Ok? {
          r := ResolveExpr(right);
        }
      case Logical(left, _, right) =>
        r := ResolveExpr(left);
        if r.Ok? {
          r := ResolveExpr(right);
        }
      case Call(callee, _, arguments) =>
        r := ResolveExpr(callee);
        if r.Ok? {
          r := ResolveExprs(arguments);
        }
      case Get(obj, index) =>
        r := ResolveExpr(obj);
        if r.Ok? {
          r := ResolveExpr(index);
        }
      case Grouping(inner) =>
        r := ResolveExpr(inner);
      case ListExpr(elements) =>
        r := ResolveExprs(elements);
      case Literal(_) =>
        r := Ok(());
      case Unary(_, right) =>
        r := ResolveExpr(right);
      case Variable(name, id) =>
        r := ResolveVariable(name.lexeme, id);
    }

    /** visit_variable_expr: reading a name that is declared but not yet
        defined in the innermost scope is an error; otherwise the use is
        resolved. */
    method ResolveVariable(name: string, id: nat) returns (r: Result<(), string>)
      modifies this
      ensures Walk(r, State()) == VariableWalk(old(State()), name, id)
    {
      if |scopes| > 0 && name in scopes[|scopes| - 1] && !scopes[|scopes| - 1][name] {
        return Err(OwnInitializer(name));
      }
      ResolveLocal(id, name);
      return Ok(());
    }

    method BeginScope()
      modifies this
      ensures scopes == old(scopes) + [map[]]
      ensures currentFunction == old(currentFunction) && locals == old(locals)
    {
      scopes := scopes + [map[]];
    }

    method EndScope()
      requires |scopes| > 0
      modifies this
      ensures scopes == old(scopes)[..|old(scopes)| - 1]
      ensures currentFunction == old(currentFunction) && locals == old(locals)
    {
      scopes := scopes[..|scopes| - 1];
    }

    /** declare: nothing at global scope; otherwise marks the name as
        declared but not yet defined, refusing a second declaration in the
        same scope. */
    method Declare(name: string) returns (r: Result<(), string>)
      modifies this
      ensures Walk(r, State()) == DeclareIn(old(State()), name)
    {
      if |scopes| == 0 {
        return Ok(());
      }
      var top := scopes[|scopes| - 1];
      if name in top {
        return Err(AlreadyDeclared(name));
      }
      scopes := scopes[|scopes| - 1 := top[name := false]];
      return Ok(());
    }

    /** define: nothing at global scope; otherwise marks the name as
        defined in the innermost scope. */
    method Define(name: string)
      modifies this
      ensures State() == DefineIn(old(State()), name)
    {
      if |scopes| == 0 {
        return;
      }
      scopes := scopes[|scopes| - 1 := scopes[|scopes| - 1][name := true]];
    }

    /** resolve_local: records the distance to the innermost scope holding
        the name, or nothing when no scope holds it (a global). */
    method ResolveLocal(id: nat, name: string)
      modifies this
      ensures State() == LocalIn(old(State()), id, name)
    {
      var i := |scopes|;
      while i > 0
        invariant 0 <= i <= |scopes|
        invariant forall j :: i <= j < |scopes| ==> name !in scopes[j]
        invariant locals == old(locals)
      {
        i := i - 1;
        if name in scopes[i] {
          InnermostAt(scopes, name, i);
          locals := locals[id := |scopes| - 1 - i];
          return;
        }
      }
      InnermostNone(scopes, name);
    }
  }

  /** The innermost scope holding the name determines the depth. */
  lemma {:induction false} InnermostAt(scopes: seq<Scope>, name: string, i: nat)
    requires i < |scopes| && name in scopes[i]
    requires forall j :: i < j < |scopes| ==> name !in scopes[j]
    ensures Innermost(scopes, name) == Some(|scopes| - 1 - i)
    decreases |scopes|
  {
    if i < |scopes| - 1 {
      var init := scopes[..|scopes| - 1];
      assert forall j :: i < j < |init| ==> init[j] == scopes[j];
      InnermostAt(init, name, i);
    }
  }

  lemma {:induction false} InnermostNone(scopes: seq<Scope>, name: string)
    requires forall j :: 0 <= j < |scopes| ==> name !in scopes[j]
    ensures Innermost(scopes, name).None?
    decreases |scopes|
  {
    if |scopes| > 0 {
      var init := scopes[..|scopes| - 1];
      assert forall j :: 0 <= j < |init| ==> init[j] == scopes[j];
      InnermostNone(init, name);
    }
  }

  // ---------------------------------------------------------------------
  // What the walk records
  // ---------------------------------------------------------------------

  /** Each node of the tree is its own object in Python, so the ids of the
      uses in an expression are pairwise distinct. */
  predicate Distinct(e: Expr)
    decreases ExprSize(e), 0
  {
    match e
    case Binary(l, _, r) => Distinct(l) && Distinct(r) && Ids(l) !! Ids(r)
    case Grouping(x) => Distinct(x)
    case Literal(_) => true
    case Unary(_, r) => Distinct(r)
    case Variable(_, _) => true
    case Assign(_, id, v) => Distinct(v) && id !in Ids(v)
    case Logical(l, _, r) => Distinct(l) && Distinct(r) && Ids(l) !! Ids(r)
    case Call(c, _, args) => Distinct(c) && DistinctAll(args) && Ids(c) !! IdsAll(args)
    case ListExpr(es) => DistinctAll(es)
    case Get(o, i) => Distinct(o) && Distinct(i) && Ids(o) !! Ids(i)
  }

  predicate DistinctAll(es: seq<Expr>)
    decreases ExprsSize(es), 1
  {
    |es| == 0 || (Distinct(es[0]) && DistinctAll(es[1..]) && Ids(es[0]) !! IdsAll(es[1..]))
  }

  /** One use resolved: the depth of the innermost scope holding the name
      is recorded for its id, and a global keeps what was recorded before. */
  predicate UseResolved(scopes: seq<Scope>, before: map<nat, nat>, after: map<nat, nat>, id: nat, name: string)
  {
    Recorded(after, id) == if Innermost(scopes, name).Some? then Innermost(scopes, name) else Recorded(before, id)
  }

  /** Every variable use and assignment target in the expression is
      resolved against the scopes. */
  predicate ResolvedIn(scopes: seq<Scope>, before: map<nat, nat>, after: map<nat, nat>, e: Expr)
    decreases ExprSize(e), 0
  {
    match e
    case Binary(l, _, r) => ResolvedIn(scopes, before, after, l) && ResolvedIn(scopes, before, after, r)
    case Grouping(x) => ResolvedIn(scopes, before, after, x)
    case Literal(_) => true
    case Unary(_, r) => ResolvedIn(scopes, before, after, r)
    case Variable(name, id) => UseResolved(scopes, before, after, id, name.lexeme)
    case Assign(name, id, v) => ResolvedIn(scopes, before, after, v) && UseResolved(scopes, before, after, id, name.lexeme)
    case Logical(l, _, r) => ResolvedIn(scopes, before, after, l) && ResolvedIn(scopes, before, after, r)
    case Call(c, _, args) => ResolvedIn(scopes, before, after, c) && ResolvedInAll(scopes, before, after, args)
    case ListExpr(es) => ResolvedInAll(scopes, before, after, es)
    case Get(o, i) => ResolvedIn(scopes, before, after, o) && ResolvedIn(scopes, before, after, i)
  }

  predicate ResolvedInAll(scopes: seq<Scope>, before: map<nat, nat>, after: map<nat, nat>, es: seq<Expr>)
    decreases ExprsSize(es), 1
  {
    |es| == 0 || (ResolvedIn(scopes, before, after, es[0]) && ResolvedInAll(scopes, before, after, es[1..]))
  }

  /** Being resolved depends only on what is recorded for the
      expression's own ids. */
  lemma {:induction false} ResolvedInAgree(scopes: seq<Scope>, b1: map<nat, nat>, a1: map<nat, nat>, b2: map<nat, nat>, a2: map<nat, nat>, e: Expr)
    requires ResolvedIn(scopes, b1, a1, e)
    requires forall k :: k in Ids(e) ==> Recorded(b1, k) == Recorded(b2, k) && Recorded(a1, k) == Recorded(a2, k)
    ensures ResolvedIn(scopes, b2, a2, e)
    decreases ExprSize(e), 0
  {
    match e
    case Binary(l, _, r) =>
      ResolvedInAgree(scopes, b1, a1, b2, a2, l);
      ResolvedInAgree(scopes, b1, a1, b2, a2, r);
    case Grouping(x) => ResolvedInAgree(scopes, b1, a1, b2, a2, x);
    case Literal(_) =>
    case Unary(_, r) => ResolvedInAgree(scopes, b1, a1, b2, a2, r);
    case Variable(name, id) =>
    case Assign(name, id, v) => ResolvedInAgree(scopes, b1, a1, b2, a2, v);
    case Logical(l, _, r) =>
      ResolvedInAgree(scopes, b1, a1, b2, a2, l);
      ResolvedInAgree(scopes, b1, a1, b2, a2, r);
    case Call(c, _, args) =>
      ResolvedInAgree(scopes, b1, a1, b2, a2, c);
      ResolvedInAllAgree(scopes, b1, a1, b2, a2, args);
    case ListExpr(es) => ResolvedInAllAgree(scopes, b1, a1, b2, a2, es);
    case Get(o, i) =>
      ResolvedInAgree(scopes, b1, a1, b2, a2, o);
      ResolvedInAgree(scopes, b1, a1, b2, a2, i);
  }

  lemma {:induction false} ResolvedInAllAgree(scopes: seq<Scope>, b1: map<nat, nat>, a1: map<nat, nat>, b2: map<nat, nat>, a2: map<nat, nat>, es: seq<Expr>)
    requires ResolvedInAll(scopes, b1, a1, es)
    requires forall k :: k in IdsAll(es) ==> Recorded(b1, k) == Recorded(b2, k) && Recorded(a1, k) == Recorded(a2, k)
    ensures ResolvedInAll(scopes, b2, a2, es)
    decreases ExprsSize(es), 1
  {
    if |es| > 0 {
      ResolvedInAgree(scopes, b1, a1, b2, a2, es[0]);
      ResolvedInAllAgree(scopes, b1, a1, b2, a2, es[1..]);
    }
  }

  /** A successful walk of an expression whose nodes are distinct records,
      for every variable use and assignment in it, the depth of the
      innermost scope that holds the name, and leaves a global's entry as
      it was. */
  lemma {:induction false} ExprWalkResolves(st: RState, e: Expr)
    requires Distinct(e) && ExprWalk(st, e).outcome.Ok?
    ensures ResolvedIn(st.scopes, st.locals, ExprWalk(st, e).st.locals, e)
    decreases ExprSize(e), 0
  {
    match e
    case Binary(l, _, r) =>
      var a := ExprWalk(st, l);
      ExprWalkResolves(st, l);
      ExprWalkResolves(a.st, r);
      var b := ExprWalk(a.st, r);
      ResolvedInAgree(st.scopes, st.locals, a.st.locals, st.locals, b.st.locals, l);
      ResolvedInAgree(st.scopes, a.st.locals, b.st.locals, st.locals, b.st.locals, r);
    case Logical(l, _, r) =>
      var a := ExprWalk(st, l);
      ExprWalkResolves(st, l);
      ExprWalkResolves(a.st, r);
      var b := ExprWalk(a.st, r);
      ResolvedInAgree(st.scopes, st.locals, a.st.locals, st.locals, b.st.locals, l);
      ResolvedInAgree(st.scopes, a.st.locals, b.st.locals, st.locals, b.st.locals, r);
    case Get(l, r) =>
      var a := ExprWalk(st, l);
      ExprWalkResolves(st, l);
      ExprWalkResolves(a.st, r);
      var b := ExprWalk(a.st, r);
      ResolvedInAgree(st.scopes, st.locals, a.st.locals, st.locals, b.st.locals, l);
      ResolvedInAgree(st.scopes, a.st.locals, b.st.locals, st.locals, b.st.locals, r);
    case Call(c, _, args) =>
      var a := ExprWalk(st, c);
      ExprWalkResolves(st, c);
      ExprsWalkResolves(a.st, args);
      var b := ExprsWalk(a.st, args);
      ResolvedInAgree(st.scopes, st.locals, a.st.locals, st.locals, b.st.locals, c);
      ResolvedInAllAgree(st.scopes, a.st.locals, b.st.locals, st.locals, b.st.locals, args);
    case Assign(name, id, v) =>
      var a := ExprWalk(st, v);
      ExprWalkResolves(st, v);
      var w := ExprWalk(st, e);
      ResolvedInAgree(st.scopes, st.locals, a.st.locals, st.locals, w.st.locals, v);
    case Grouping(x) => ExprWalkResolves(st, x);
    case Unary(_, r) => ExprWalkResolves(st, r);
    case ListExpr(es) => ExprsWalkResolves(st, es);
    case Literal(_) =>
    case Variable(_, _) =>
  }

  /** The same for a list of expressions, such as a call's arguments. */
  lemma {:induction false} ExprsWalkResolves(st: RState, es: seq<Expr>)
    requires DistinctAll(es) && ExprsWalk(st, es).outcome.Ok?
    ensures ResolvedInAll(st.scopes, st.locals, ExprsWalk(st, es).st.locals, es)
    decreases ExprsSize(es), 1
  {
    if |es| > 0 {
      var a := ExprWalk(st, es[0]);
      ExprWalkResolves(st, es[0]);
      ExprsWalkResolves(a.st, es[1..]);
      var b := ExprsWalk(a.st, es[1..]);
      ResolvedInAgree(st.scopes, st.locals, a.st.locals, st.locals, b.st.locals, es[0]);
      ResolvedInAllAgree(st.scopes, a.st.locals, b.st.locals, st.locals, b.st.locals, es[1..]);
    }
  }

  // ---------------------------------------------------------------------
  // The scope a function body is resolved in
  // ---------------------------------------------------------------------

  /** The names of the parameters. */
  function LexemeSet(params: seq<Token>): (r: set<string>)
    ensures forall i :: 0 <= i < |params| ==> params[i].lexeme in r
  {
    if |params| == 0 then {} else {params[0].lexeme} + LexemeSet(params[1..])
  }

  /** No parameter name appears again later in the list. */
  predicate DistinctNames(params: seq<Token>)
  {
    |params| == 0 || (params[0].lexeme !in LexemeSet(params[1..]) && DistinctNames(params[1..]))
  }

  /** A scope with the parameters defined, in order, on top of `top`. */
  function Defined(top: Scope, params: seq<Token>): (r: Scope)
    ensures r.Keys == top.Keys + LexemeSet(params)
    ensures forall k :: k in LexemeSet(params) ==> r[k]
    ensures forall k :: k in top && k !in LexemeSet(params) ==> r[k] == top[k]
    decreases |params|
  {
    if |params| == 0 then top else Defined(top[params[0].lexeme := true], params[1..])
  }

  /** The scope resolve_function builds: every parameter defined. */
  function ParamScope(params: seq<Token>): (m: Scope)
    ensures m.Keys == LexemeSet(params) && forall k :: k in m ==> m[k]
  {
    Defined(map[], params)
  }

  /** The parameter loop succeeds exactly when no name repeats and none is
      already in the innermost scope, and then it leaves every parameter
      defined there. */
  lemma {:induction false} ParamsWalkTop(st: RState, params: seq<Token>)
    requires |st.scopes| > 0
    ensures ParamsWalk(st, params).outcome.Ok? <==>
      DistinctNames(params) && LexemeSet(params) !! st.scopes[|st.scopes| - 1].Keys
    ensures ParamsWalk(st, params).outcome.Ok? ==>
      ParamsWalk(st, params).st.scopes == st.scopes[..|st.scopes| - 1] + [Defined(st.scopes[|st.scopes| - 1], params)]
    decreases |params|
  {
    var n := |st.scopes|;
    if |params| == 0 {
      assert st.scopes == st.scopes[..n - 1] + [st.scopes[n - 1]];
    } else {
      var x := params[0].lexeme;
      var d := DeclareIn(st, x);
      if d.outcome.Ok? {
        var next := DefineIn(d.st, x);
        ParamsWalkTop(next, params[1..]);
        assert next.scopes[n - 1] == st.scopes[n - 1][x := true];
        assert next.scopes[..n - 1] == st.scopes[..n - 1];
      }
    }
  }

  /** resolve_function with distinct parameter names resolves the body in
      the enclosing scopes plus one scope with every parameter defined,
      with the given function type, and then restores the enclosing scopes
      and function type; a repeated parameter name is an error. */
  lemma {:induction false} FunctionScope(st: RState, params: seq<Token>, body: seq<Option<Stmt>>, kind: FunctionType)
    ensures !DistinctNames(params) ==> FunctionWalk(st, params, body, kind).outcome.Err?
    ensures DistinctNames(params) ==>
      var b := StmtsWalk(RState(st.scopes + [ParamScope(params)], kind, st.locals), body);
      FunctionWalk(st, params, body, kind) == if b.outcome.Err? then b else b.(st := RState(st.scopes, st.fn, b.st.locals))
  {
    var opening := RState(st.scopes + [map[]], kind, st.locals);
    ParamsWalkTop(opening, params);
    assert opening.scopes[..|opening.scopes| - 1] == st.scopes;
  }

  /** Resolving a list of statements is resolving a prefix and then the
      rest from where the prefix left off. */
  lemma {:induction false} StmtsWalkAppend(st: RState, a: seq<Option<Stmt>>, b: seq<Option<Stmt>>)
    ensures var w := StmtsWalk(st, a);
      StmtsWalk(st, a + b) == if w.outcome.Err? then w else StmtsWalk(w.st, b)
    decreases |a|
  {
    if |a| == 0 {
      assert a + b == b;
    } else {
      assert (a + b)[0] == a[0];
      assert (a + b)[1..] == a[1..] + b;
      var first := match a[0]
        case Some(s) => StmtWalk(st, s)
        case None => Walk(Ok(()), st);
      if first.outcome.Ok? {
        StmtsWalkAppend(first.st, a[1..], b);
      }
    }
  }

  /** `var a = a;` inside a block or function reads the variable in its
      own initializer, an error; at global scope it is allowed and reads
      the global. */
  lemma VarOwnInitializer(st: RState, t: Token, id: nat)
    ensures |st.scopes| > 0 && t.lexeme !in st.scopes[|st.scopes| - 1] ==>
      VarWalk(st, t.lexeme, Some(Variable(t, id))).outcome == Err(OwnInitializer(t.lexeme))
    ensures |st.scopes| == 0 ==> VarWalk(st, t.lexeme, Some(Variable(t, id))).outcome.Ok?
  {
  }
}
