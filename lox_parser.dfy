/** The recursive-descent parser (interpreter/parser/parser.py).

    The parser is a class over a cursor into the token list. Each grammar
    rule is a method; a rule that fails returns the ParseError message, and
    `Declaration` turns a failure into `None` after resynchronising. The
    contracts state the precedence structure of every expression produced
    (`Shaped`), that every successful rule consumes input, and the
    resynchronisation point. */
module LoxParser {
  import opened Base
  import opened LoxTokens
  import opened LoxAst

  // ---------------------------------------------------------------------
  // The shape of what the parser produces
  // ---------------------------------------------------------------------

  predicate IsBinaryOp(k: TokenType)
  {
    k in {BANG_EQUAL, EQUAL_EQUAL, GREATER, GREATER_EQUAL, LESS, LESS_EQUAL, MINUS, PLUS, SLASH, STAR}
  }

  /** The precedence level of a binary operator: equality 3, comparison 4,
      term 5, factor 6. */
  function BinaryLevel(k: TokenType): nat
  {
    if k == BANG_EQUAL || k == EQUAL_EQUAL then 3
    else if k == GREATER || k == GREATER_EQUAL || k == LESS || k == LESS_EQUAL then 4
    else if k == MINUS || k == PLUS then 5
    else 6
  }

  /** The precedence level of the node at the root of `e`: assignment 0,
      or 1, and 2, binary operators 3-6, unary 7, calls, indexing and
      primaries 8. */
  function Level(e: Expr): nat
  {
    match e
    case Assign(_, _, _) => 0
    case Logical(_, op, _) => if op.kind == OR then 1 else 2
    case Binary(_, op, _) => BinaryLevel(op.kind)
    case Unary(_, _) => 7
    case _ => 8
  }

  /** The precedence structure of a parsed expression: the left operand of a
      binary or logical node binds at least as tightly as the node and the
      right operand strictly more tightly (left associativity); an
      assignment's value may be anything (right associativity); operands of
      unary, call and index nodes bind at least as tightly as those nodes. */
  predicate Shaped(e: Expr)
  {
    match e
    case Assign(name, _, v) => name.kind == IDENTIFIER && Shaped(v)
    case Logical(l, op, r) =>
      && (op.kind == OR || op.kind == AND)
      && Level(l) >= Level(e) && Level(r) > Level(e) && Shaped(l) && Shaped(r)
    case Binary(l, op, r) =>
      && IsBinaryOp(op.kind)
      && Level(l) >= Level(e) && Level(r) > Level(e) && Shaped(l) && Shaped(r)
    case Unary(op, r) => (op.kind == BANG || op.kind == MINUS) && Level(r) >= 7 && Shaped(r)
    case Call(c, paren, args) =>
      && Level(c) >= 8 && paren.kind == RIGHT_PAREN && |args| <= 255 && Shaped(c)
      && forall i :: 0 <= i < |args| ==> Shaped(args[i])
    case Get(o, i) => Level(o) >= 8 && Shaped(o) && Shaped(i)
    case Grouping(x) => Shaped(x)
    case ListExpr(es) => forall i :: 0 <= i < |es| ==> Shaped(es[i])
    case Literal(_) => true
    case Variable(name, _) => name.kind == IDENTIFIER
  }

  predicate StmtShaped(s: Stmt)
  {
    match s
    case Expression(e) => Shaped(e)
    case Print(e) => Shaped(e)
    case Var(name, init) => name.kind == IDENTIFIER && (init.Some? ==> Shaped(init.value))
    case Block(ss) => forall i :: 0 <= i < |ss| ==> OptStmtShaped(ss[i])
    case If(c, t, el) => Shaped(c) && StmtShaped(t) && OptStmtShaped(el)
    case While(c, b) => Shaped(c) && StmtShaped(b)
    case Function(name, params, body) =>
      && name.kind == IDENTIFIER && |params| <= 255
      && (forall i :: 0 <= i < |params| ==> params[i].kind == IDENTIFIER)
      && forall i :: 0 <= i < |body| ==> OptStmtShaped(body[i])
    case Return(keyword, v) => keyword.kind == RETURN && (v.Some? ==> Shaped(v.value))
  }

  predicate OptStmtShaped(o: Option<Stmt>)
  {
    match o
    case None => true
    case Some(s) => StmtShaped(s)
  }

  /** The three clauses and the body of a `for` loop, as parsed. */
  datatype ForClauses = ForClauses(init: Option<Stmt>, cond: Option<Expr>, incr: Option<Expr>, body: Stmt)

  /** The while loop a `for` loop stands for: the increment runs after the
      body, a missing condition is `true`, and the initializer runs once
      before the loop in an enclosing block. */
  function DesugarFor(f: ForClauses): (s: Stmt)
    ensures f.init.Some? ==>
      && s.Block? && |s.statements| == 2 && s.statements[0] == f.init
      && s.statements[1] == Some(WhileFor(f))
    ensures f.init.None? ==> s == WhileFor(f)
  {
    if f.init.Some? then Block([f.init, Some(WhileFor(f))]) else WhileFor(f)
  }

  /** The loop of a desugared `for`: the increment runs after the body on
      every iteration, and a missing condition is `true`. */
  function WhileFor(f: ForClauses): (s: Stmt)
    ensures s.While?
    ensures f.cond.None? ==> s.condition == Literal(BoolLit(true))
    ensures f.cond.Some? ==> s.condition == f.cond.value
    ensures f.incr.None? ==> s.body == f.body
    ensures f.incr.Some? ==> s.body == Block([Some(f.body), Some(Expression(f.incr.value))])
  {
    var body := if f.incr.Some? then Block([Some(f.body), Some(Expression(f.incr.value))]) else f.body;
    var cond := if f.cond.Some? then f.cond.value else Literal(BoolLit(true));
    While(cond, body)
  }

  /** A `for` loop whose clauses are shaped yields a shaped statement. */
  lemma {:induction false} DesugarForShaped(f: ForClauses)
    requires OptStmtShaped(f.init) && (f.cond.Some? ==> Shaped(f.cond.value))
    requires (f.incr.Some? ==> Shaped(f.incr.value)) && StmtShaped(f.body)
    ensures StmtShaped(DesugarFor(f))
  {
    var loop := WhileFor(f);
    if f.incr.Some? {
      var ss := [Some(f.body), Some(Expression(f.incr.value))];
      assert OptStmtShaped(ss[0]) && OptStmtShaped(ss[1]);
      assert StmtShaped(Block(ss));
    }
    assert StmtShaped(loop);
    if f.init.Some? {
      var ss := [f.init, Some(loop)];
      assert OptStmtShaped(ss[0]) && OptStmtShaped(ss[1]);
    }
  }

  /** A binary node built by the loop of one precedence level. */
  lemma {:induction false} BinaryShaped(l: Expr, op: Token, r: Expr)
    requires IsBinaryOp(op.kind) && Shaped(l) && Shaped(r)
    requires Level(l) >= BinaryLevel(op.kind) && Level(r) > BinaryLevel(op.kind)
    ensures Shaped(Binary(l, op, r)) && Level(Binary(l, op, r)) == BinaryLevel(op.kind)
  {
  }

  /** The operators of each binary level, as the rules match them. */
  const EqualityOps: set<TokenType> := {BANG_EQUAL, EQUAL_EQUAL}
  const ComparisonOps: set<TokenType> := {GREATER, GREATER_EQUAL, LESS, LESS_EQUAL}
  const TermOps: set<TokenType> := {MINUS, PLUS}
  const FactorOps: set<TokenType> := {SLASH, STAR}

  /** The operators of a level, by level number. */
  function OpsAt(n: nat): set<TokenType>
    requires 3 <= n <= 6
  {
    if n == 3 then EqualityOps else if n == 4 then ComparisonOps else if n == 5 then TermOps else FactorOps
  }

  /** One more operator and operand at a binary level keeps the shape and
      the level. */
  lemma {:induction false} BinaryStep(l: Expr, op: Token, r: Expr, n: nat)
    requires 3 <= n <= 6 && op.kind in OpsAt(n)
    requires Shaped(l) && Level(l) >= n && Shaped(r) && Level(r) > n
    ensures Shaped(Binary(l, op, r)) && Level(Binary(l, op, r)) >= n
  {
    OpsAtLevel(op.kind, n);
    BinaryShaped(l, op, r);
  }

  /** Every operator a level matches is a binary operator of that level. */
  lemma {:induction false} OpsAtLevel(k: TokenType, n: nat)
    requires 3 <= n <= 6 && k in OpsAt(n)
    ensures IsBinaryOp(k) && BinaryLevel(k) == n
  {
    if n == 3 {
      assert k == BANG_EQUAL || k == EQUAL_EQUAL;
    } else if n == 4 {
      assert k == GREATER || k == GREATER_EQUAL || k == LESS || k == LESS_EQUAL;
    } else if n == 5 {
      assert k == MINUS || k == PLUS;
    } else {
      assert k == SLASH || k == STAR;
    }
  }

  lemma {:induction false} LogicalStep(l: Expr, op: Token, r: Expr, n: nat)
    requires (n == 1 && op.kind == OR) || (n == 2 && op.kind == AND)
    requires Shaped(l) && Level(l) >= n && Shaped(r) && Level(r) > n
    ensures Shaped(Logical(l, op, r)) && Level(Logical(l, op, r)) >= n
  {
  }

  /** The message of a ParseError: the line, then "at end" for the EOF
      token and the quoted lexeme otherwise, then the message. */
  function ErrorAt(token: Token, message: string): (r: string)
    ensures StartsWith(r, "line " + NatToString(token.line) + " at ")
    ensures EndsWith(r, message)
    ensures token.kind == EOF <==> StartsWith(r, "line " + NatToString(token.line) + " at end: ")
  {
    var head := "line " + NatToString(token.line) + " at ";
    var where := if token.kind == EOF then "end" else "'" + token.lexeme + "'";
    var r := head + where + ": " + message;
    assert r[..|head|] == head;
    assert r[|r| - |message|..] == message;
    assert token.kind != EOF ==> r[|head|] == '\'' && (head + "end: ")[|head|] == 'e';
    r
  }

  // ---------------------------------------------------------------------
  // Cursor and resynchronisation
  // ---------------------------------------------------------------------

  predicate EndsWithEof(tokens: seq<Token>)
  {
    |tokens| >= 1 && tokens[|tokens| - 1].kind == EOF
  }

  /** `previous()`: the token before the cursor; Python's index -1 gives the
      last token when the cursor is at 0. */
  function PreviousAt(tokens: seq<Token>, c: nat): Token
    requires c < |tokens|
  {
    if c == 0 then tokens[|tokens| - 1] else tokens[c - 1]
  }

  /** Where `advance()` leaves the cursor: one further, except at EOF. */
  function AdvancedFrom(tokens: seq<Token>, c: nat): (r: nat)
    requires EndsWithEof(tokens) && c < |tokens|
    ensures r < |tokens|
  {
    if tokens[c].kind == EOF then c else c + 1
  }

  predicate IsStatementStart(k: TokenType)
  {
    k in {FUN, VAR, FOR, IF, WHILE, PRINT, RETURN}
  }

  /** Where the loop of `synchronize` stops when started at `p`: at EOF,
      just after a ';', or just before a keyword that starts a statement;
      no position it skips satisfies any of these. */
  function SyncFrom(tokens: seq<Token>, p: nat): (r: nat)
    requires EndsWithEof(tokens) && p < |tokens|
    ensures p <= r < |tokens|
    ensures tokens[r].kind == EOF || PreviousAt(tokens, r).kind == SEMICOLON || IsStatementStart(tokens[r].kind)
    ensures forall i :: p <= i < r ==>
      tokens[i].kind != EOF && PreviousAt(tokens, i).kind != SEMICOLON && !IsStatementStart(tokens[i].kind)
    decreases |tokens| - p
  {
    if tokens[p].kind == EOF then p
    else if PreviousAt(tokens, p).kind == SEMICOLON then p
    else if IsStatementStart(tokens[p].kind) then p
    else SyncFrom(tokens, p + 1)
  }

  /** `synchronize` as written: the list it tests the current token against
      names `TokenType.CLASS`, which the enumeration does not define, so
      evaluating that list raises AttributeError the first time the loop
      gets past its EOF and ';' tests. */
  function SynchronizeAsWritten(tokens: seq<Token>, c: nat): (r: Result<nat, string>)
    requires EndsWithEof(tokens) && c < |tokens|
  {
    var p := AdvancedFrom(tokens, c);
    if tokens[p].kind == EOF then Ok(p)
    else if PreviousAt(tokens, p).kind == SEMICOLON then Ok(p)
    else Err("AttributeError: CLASS")
  }

  /** As written, `synchronize` fails exactly when the corrected loop would
      look at the keyword list, and otherwise agrees with it. */
  lemma {:induction false} SynchronizeAsWrittenFails(tokens: seq<Token>, c: nat)
    requires EndsWithEof(tokens) && c < |tokens|
    ensures var p := AdvancedFrom(tokens, c);
      SynchronizeAsWritten(tokens, c).Err? <==> (tokens[p].kind != EOF && PreviousAt(tokens, p).kind != SEMICOLON)
    ensures SynchronizeAsWritten(tokens, c).Ok? ==> SynchronizeAsWritten(tokens, c).value == SyncFrom(tokens, AdvancedFrom(tokens, c))
  {
  }

  /** The source `+ 1;`: the expression fails at `+`; after advancing, the
      previous token is `+`, so the written `synchronize` raises, where the
      corrected one skips to the end after the ';'. */
  lemma {:induction false} SynchronizeAsWrittenCounterexample()
    ensures var tokens := [Token(PLUS, "+", NoLiteral, 1), Token(NUMBER, "1", NumLit("1"), 1),
                           Token(SEMICOLON, ";", NoLiteral, 1), Token(EOF, "", NoLiteral, 1)];
      && SynchronizeAsWritten(tokens, 0).Err?
      && SyncFrom(tokens, AdvancedFrom(tokens, 0)) == 3
  {
    var tokens := [Token(PLUS, "+", NoLiteral, 1), Token(NUMBER, "1", NumLit("1"), 1),
                   Token(SEMICOLON, ";", NoLiteral, 1), Token(EOF, "", NoLiteral, 1)];
    SynchronizeAsWrittenKinds(tokens);
  }

  /** Any four tokens of the kinds of `+ 1;` and EOF show the failure. */
  lemma {:induction false} SynchronizeAsWrittenKinds(tokens: seq<Token>)
    requires |tokens| == 4 && tokens[0].kind == PLUS && tokens[1].kind == NUMBER
    requires tokens[2].kind == SEMICOLON && tokens[3].kind == EOF
    ensures EndsWithEof(tokens)
    ensures SynchronizeAsWritten(tokens, 0).Err? && SyncFrom(tokens, AdvancedFrom(tokens, 0)) == 3
  {
    assert EndsWithEof(tokens);
    assert SyncFrom(tokens, 3) == 3;
    assert SyncFrom(tokens, 2) == 3;
  }

  function LiteralOf(l: Literal): LiteralValue
  {
    match l
    case NoLiteral => NilLit
    case StrLit(s) => StringLit(s)
    case NumLit(x) => NumberLit(x)
  }

  // ---------------------------------------------------------------------
  // The grammar as functions of a cursor position
  // ---------------------------------------------------------------------

  /** What a rule started at a position yields: the node built or the
      ParseError message, and the position the cursor is left at (for an
      error, the position at which it was raised). */
  datatype Parsed<T> = Parsed(outcome: Result<T, string>, pos: nat)

  /** An error handed on to the enclosing rule as it is. */
  function Fail<T, U>(x: Parsed<T>): (r: Parsed<U>)
    requires x.outcome.Err?
    ensures r.outcome.Err? && r.outcome.error == x.outcome.error && r.pos == x.pos
  {
    Parsed(Err(x.outcome.error), x.pos)
  }

  /** `match(*kinds)` at position p: the token there is not EOF and has one
      of the types. */
  predicate MatchAt(tokens: seq<Token>, p: nat, kinds: set<TokenType>)
    requires EndsWithEof(tokens) && p < |tokens|
  {
    tokens[p].kind != EOF && tokens[p].kind in kinds
  }

  /** `consume(kind, message)` at position p: the token when it has the
      type, else the error reported at it with the cursor unmoved. */
  function ConsumeAt(tokens: seq<Token>, p: nat, kind: TokenType, message: string): (r: Parsed<Token>)
    requires EndsWithEof(tokens) && p < |tokens|
    ensures p <= r.pos < |tokens|
    ensures r.outcome.Ok? <==> MatchAt(tokens, p, {kind})
    ensures r.outcome.Ok? ==> r.pos == p + 1 && r.outcome.value == tokens[p] && r.outcome.value.kind == kind
    ensures r.outcome.Err? ==> r.pos == p && r.outcome.error == ErrorAt(tokens[p], message)
  {
    if MatchAt(tokens, p, {kind}) then Parsed(Ok(tokens[p]), p + 1)
    else Parsed(Err(ErrorAt(tokens[p], message)), p)
  }

  /** The operators of the loop levels: `or` 1, `and` 2, then equality,
      comparison, term and factor. */
  function LevelOps(n: nat): set<TokenType>
    requires 1 <= n <= 6
  {
    if n == 1 then {OR} else if n == 2 then {AND} else OpsAt(n)
  }

  /** The node one iteration of a level's loop builds: Logical for `or` and
      `and`, Binary for the others; its root sits at the level. */
  function LevelNode(n: nat, l: Expr, op: Token, r: Expr): (e: Expr)
    requires 1 <= n <= 6 && op.kind in LevelOps(n)
    requires Shaped(l) && Level(l) >= n && Shaped(r) && Level(r) > n
    ensures Shaped(e) && Level(e) == n
  {
    if n <= 2 then
      Logical(l, op, r)
    else
      OpsAtLevel(op.kind, n);
      BinaryShaped(l, op, r);
      Binary(l, op, r)
  }

  /** program: the declarations from p to EOF, in order, one per
      declaration. */
  function ProgramAt(tokens: seq<Token>, p: nat): (r: seq<Option<Stmt>>)
    requires EndsWithEof(tokens) && p < |tokens|
    ensures forall i :: 0 <= i < |r| ==> OptStmtShaped(r[i])
    ensures |r| <= |tokens| - 1 - p
    decreases |tokens| - p
  {
    if tokens[p].kind == EOF then []
    else
      var d := DeclarationAt(tokens, p);
      var rest := ProgramAt(tokens, d.pos);
      assert forall i :: 1 <= i < 1 + |rest| ==> ([d.outcome.value] + rest)[i] == rest[i - 1];
      [d.outcome.value] + rest
  }

  /** declaration: a function after `fun`, a variable after `var`, else a
      statement; a rule that fails is replaced by None, with the cursor
      moved on by `synchronize`. */
  function DeclarationAt(tokens: seq<Token>, p: nat): (r: Parsed<Option<Stmt>>)
    requires EndsWithEof(tokens) && p < |tokens| && tokens[p].kind != EOF
    ensures p < r.pos < |tokens| && r.outcome.Ok? && OptStmtShaped(r.outcome.value)
    decreases |tokens| - p, 25
  {
    var res := DeclRuleAt(tokens, p);
    if res.outcome.Err? then Parsed(Ok(None), SyncFrom(tokens, AdvancedFrom(tokens, res.pos)))
    else Parsed(Ok(Some(res.outcome.value)), res.pos)
  }

  /** The rule a declaration starts with, chosen by its first token. */
  function DeclRuleAt(tokens: seq<Token>, p: nat): (r: Parsed<Stmt>)
    requires EndsWithEof(tokens) && p < |tokens| && tokens[p].kind != EOF
    ensures p <= r.pos < |tokens|
    ensures r.outcome.Ok? ==> r.pos > p && StmtShaped(r.outcome.value)
    decreases |tokens| - p, 24
  {
    if MatchAt(tokens, p, {FUN}) then FunctionAt(tokens, p + 1, "function")
    else if MatchAt(tokens, p, {VAR}) then VarDeclarationAt(tokens, p + 1)
    else StatementAt(tokens, p)
  }

  /** function: the name, the parenthesised parameters and the body. */
  function FunctionAt(tokens: seq<Token>, p: nat, kind: string): (r: Parsed<Stmt>)
    requires EndsWithEof(tokens) && p < |tokens|
    ensures p <= r.pos < |tokens|
    ensures r.outcome.Ok? ==> r.pos > p && r.outcome.value.Function? && StmtShaped(r.outcome.value)
    decreases |tokens| - p, 22
  {
    var name := ConsumeAt(tokens, p, IDENTIFIER, "Expect " + kind + " name.");
    if name.outcome.Err? then Fail(name)
    else
      var open := ConsumeAt(tokens, name.pos, LEFT_PAREN, "Expect '(' after " + kind + " name.");
      if open.outcome.Err? then Fail(open)
      else
        var params := ParamListAt(tokens, open.pos);
        if params.outcome.Err? then Fail(params)
        else FunctionBodyAt(tokens, name.outcome.value, params.outcome.value, params.pos, kind)
  }

  /** The parameters after `(`: none when `)` follows at once. */
  function ParamListAt(tokens: seq<Token>, p: nat): (r: Parsed<seq<Token>>)
    requires EndsWithEof(tokens) && p < |tokens|
    ensures p <= r.pos < |tokens|
    ensures r.outcome.Ok? ==> |r.outcome.value| <= 255 && forall i :: 0 <= i < |r.outcome.value| ==> r.outcome.value[i].kind == IDENTIFIER
  {
    if MatchAt(tokens, p, {RIGHT_PAREN}) then Parsed(Ok([]), p) else ParametersAt(tokens, [], p)
  }

  /** The rest of `function` once the parameters are read: `)`, `{` and
      the body. */
  function FunctionBodyAt(tokens: seq<Token>, name: Token, params: seq<Token>, p: nat, kind: string): (r: Parsed<Stmt>)
    requires EndsWithEof(tokens) && p < |tokens|
    requires name.kind == IDENTIFIER && |params| <= 255 && forall i :: 0 <= i < |params| ==> params[i].kind == IDENTIFIER
    ensures p <= r.pos < |tokens|
    ensures r.outcome.Ok? ==> r.pos > p && r.outcome.value.Function? && StmtShaped(r.outcome.value)
    ensures r.outcome.Ok? ==> r.outcome.value.name == name && r.outcome.value.params == params
    decreases |tokens| - p, 22
  {
    var close := ConsumeAt(tokens, p, RIGHT_PAREN, "Expect ')' after parameters.");
    if close.outcome.Err? then Fail(close)
    else
      var brace := ConsumeAt(tokens, close.pos, LEFT_BRACE, "Expect '{' before " + kind + " body.");
      if brace.outcome.Err? then Fail(brace)
      else
        var body := BlockAt(tokens, brace.pos);
        if body.outcome.Err? then Fail(body)
        else Parsed(Ok(Stmt.Function(name, params, body.outcome.value)), body.pos)
  }

  /** The parameter loop of `function`, with `ps` the names read so far: at
      most 255 names, separated by commas. */
  function ParametersAt(tokens: seq<Token>, ps: seq<Token>, p: nat): (r: Parsed<seq<Token>>)
    requires EndsWithEof(tokens) && p < |tokens|
    requires |ps| <= 255 && forall i :: 0 <= i < |ps| ==> ps[i].kind == IDENTIFIER
    ensures p <= r.pos < |tokens|
    ensures r.outcome.Ok? ==> |r.outcome.value| <= 255 && forall i :: 0 <= i < |r.outcome.value| ==> r.outcome.value[i].kind == IDENTIFIER
    decreases |tokens| - p
  {
    if |ps| >= 255 then Parsed(Err(ErrorAt(tokens[p], "Cannot have more than 255 parameters.")), p)
    else
      var t := ConsumeAt(tokens, p, IDENTIFIER, "Expect parameter name.");
      if t.outcome.Err? then Fail(t)
      else if MatchAt(tokens, t.pos, {COMMA}) then ParametersAt(tokens, ps + [t.outcome.value], t.pos + 1)
      else Parsed(Ok(ps + [t.outcome.value]), t.pos)
  }

  /** var: the name, an optional initializer after `=`, and the ';'. */
  function VarDeclarationAt(tokens: seq<Token>, p: nat): (r: Parsed<Stmt>)
    requires EndsWithEof(tokens) && p < |tokens|
    ensures p <= r.pos < |tokens|
    ensures r.outcome.Ok? ==> r.pos > p && r.outcome.value.Var? && StmtShaped(r.outcome.value)
    decreases |tokens| - p, 22
  {
    var name := ConsumeAt(tokens, p, IDENTIFIER, "Expect variable name.");
    if name.outcome.Err? then Fail(name)
    else if MatchAt(tokens, name.pos, {EQUAL}) then
      var e := ExpressionAt(tokens, name.pos + 1);
      if e.outcome.Err? then Fail(e)
      else Terminated(tokens, Var(name.outcome.value, Some(e.outcome.value)), e.pos, "Expect ';' after variable declaration.")
    else Terminated(tokens, Var(name.outcome.value, None), name.pos, "Expect ';' after variable declaration.")
  }

  /** A statement that ends with a ';': the statement once the ';' is
      consumed, else the error at the token found instead. */
  function Terminated(tokens: seq<Token>, s: Stmt, p: nat, message: string): (r: Parsed<Stmt>)
    requires EndsWithEof(tokens) && p < |tokens|
    ensures p <= r.pos < |tokens|
    ensures r.outcome.Ok? ==> r.outcome.value == s && r.pos == p + 1
  {
    var semi := ConsumeAt(tokens, p, SEMICOLON, message);
    if semi.outcome.Err? then Fail(semi) else Parsed(Ok(s), semi.pos)
  }

  /** statement: chosen by the first token, an expression statement when
      no keyword matches. */
  function StatementAt(tokens: seq<Token>, p: nat): (r: Parsed<Stmt>)
    requires EndsWithEof(tokens) && p < |tokens|
    ensures p <= r.pos < |tokens|
    ensures r.outcome.Ok? ==> r.pos > p && StmtShaped(r.outcome.value)
    decreases |tokens| - p, 23
  {
    if MatchAt(tokens, p, {PRINT}) then PrintAt(tokens, p + 1)
    else if MatchAt(tokens, p, {LEFT_BRACE}) then
      var b := BlockAt(tokens, p + 1);
      if b.outcome.Err? then Fail(b) else Parsed(Ok(Stmt.Block(b.outcome.value)), b.pos)
    else if MatchAt(tokens, p, {IF}) then IfAt(tokens, p + 1)
    else if MatchAt(tokens, p, {WHILE}) then WhileAt(tokens, p + 1)
    else if MatchAt(tokens, p, {FOR}) then ForAt(tokens, p + 1)
    else if MatchAt(tokens, p, {RETURN}) then ReturnAt(tokens, p + 1)
    else ExpressionStatementAt(tokens, p)
  }

  function PrintAt(tokens: seq<Token>, p: nat): (r: Parsed<Stmt>)
    requires EndsWithEof(tokens) && p < |tokens|
    ensures p <= r.pos < |tokens|
    ensures r.outcome.Ok? ==> r.pos > p && r.outcome.value.Print? && StmtShaped(r.outcome.value)
    decreases |tokens| - p, 22
  {
    var value := ExpressionAt(tokens, p);
    if value.outcome.Err? then Fail(value)
    else Terminated(tokens, Print(value.outcome.value), value.pos, "Expect ';' after value.")
  }

  /** return: the keyword is the token before p; the value is absent when
      a ';' follows at once. */
  function ReturnAt(tokens: seq<Token>, p: nat): (r: Parsed<Stmt>)
    requires EndsWithEof(tokens) && p < |tokens| && PreviousAt(tokens, p).kind == RETURN
    ensures p <= r.pos < |tokens|
    ensures r.outcome.Ok? ==> r.pos > p && r.outcome.value.Return? && StmtShaped(r.outcome.value)
    decreases |tokens| - p, 22
  {
    var keyword := PreviousAt(tokens, p);
    if MatchAt(tokens, p, {SEMICOLON}) then Terminated(tokens, Return(keyword, None), p, "Expect ';' after return value.")
    else
      var value := ExpressionAt(tokens, p);
      if value.outcome.Err? then Fail(value)
      else Terminated(tokens, Return(keyword, Some(value.outcome.value)), value.pos, "Expect ';' after return value.")
  }

  /** block: the declarations up to the closing brace. */
  function BlockAt(tokens: seq<Token>, p: nat): (r: Parsed<seq<Option<Stmt>>>)
    requires EndsWithEof(tokens) && p < |tokens|
    ensures p <= r.pos < |tokens|
    ensures r.outcome.Ok? ==> r.pos > p && forall i :: 0 <= i < |r.outcome.value| ==> OptStmtShaped(r.outcome.value[i])
    decreases |tokens| - p, 27
  {
    BlockFrom(tokens, [], p)
  }

  /** The loop of `block`, with `ss` the declarations read so far. */
  function BlockFrom(tokens: seq<Token>, ss: seq<Option<Stmt>>, p: nat): (r: Parsed<seq<Option<Stmt>>>)
    requires EndsWithEof(tokens) && p < |tokens|
    requires forall i :: 0 <= i < |ss| ==> OptStmtShaped(ss[i])
    ensures p <= r.pos < |tokens|
    ensures r.outcome.Ok? ==> r.pos > p && forall i :: 0 <= i < |r.outcome.value| ==> OptStmtShaped(r.outcome.value[i])
    decreases |tokens| - p, 26
  {
    if !MatchAt(tokens, p, {RIGHT_BRACE}) && tokens[p].kind != EOF then
      var d := DeclarationAt(tokens, p);
      BlockFrom(tokens, ss + [d.outcome.value], d.pos)
    else
      var close := ConsumeAt(tokens, p, RIGHT_BRACE, "Expect '}' after block.");
      if close.outcome.Err? then Fail(close) else Parsed(Ok(ss), close.pos)
  }

  /** if: the parenthesised condition, the then branch, and an else
      branch when `else` follows it; a nested `if` takes the `else` first. */
  function IfAt(tokens: seq<Token>, p: nat): (r: Parsed<Stmt>)
    requires EndsWithEof(tokens) && p < |tokens|
    ensures p <= r.pos < |tokens|
    ensures r.outcome.Ok? ==> r.pos > p && r.outcome.value.If? && StmtShaped(r.outcome.value)
    decreases |tokens| - p, 22
  {
    var open := ConsumeAt(tokens, p, LEFT_PAREN, "Expect '(' after 'if'.");
    if open.outcome.Err? then Fail(open)
    else
      var condition := ExpressionAt(tokens, open.pos);
      if condition.outcome.Err? then Fail(condition)
      else
        var close := ConsumeAt(tokens, condition.pos, RIGHT_PAREN, "Expect ')' after if condition.");
        if close.outcome.Err? then Fail(close)
        else
          var thenBranch := StatementAt(tokens, close.pos);
          if thenBranch.outcome.Err? then thenBranch
          else if MatchAt(tokens, thenBranch.pos, {ELSE}) then
            var elseBranch := StatementAt(tokens, thenBranch.pos + 1);
            if elseBranch.outcome.Err? then elseBranch
            else Parsed(Ok(If(condition.outcome.value, thenBranch.outcome.value, Some(elseBranch.outcome.value))), elseBranch.pos)
          else Parsed(Ok(If(condition.outcome.value, thenBranch.outcome.value, None)), thenBranch.pos)
  }

  function WhileAt(tokens: seq<Token>, p: nat): (r: Parsed<Stmt>)
    requires EndsWithEof(tokens) && p < |tokens|
    ensures p <= r.pos < |tokens|
    ensures r.outcome.Ok? ==> r.pos > p && r.outcome.value.While? && StmtShaped(r.outcome.value)
    decreases |tokens| - p, 22
  {
    var open := ConsumeAt(tokens, p, LEFT_PAREN, "Expect '(' after 'while'.");
    if open.outcome.Err? then Fail(open)
    else
      var condition := ExpressionAt(tokens, open.pos);
      if condition.outcome.Err? then Fail(condition)
      else
        var close := ConsumeAt(tokens, condition.pos, RIGHT_PAREN, "Expect ')' after condition.");
        if close.outcome.Err? then Fail(close)
        else
          var body := StatementAt(tokens, close.pos);
          if body.outcome.Err? then body
          else Parsed(Ok(While(condition.outcome.value, body.outcome.value)), body.pos)
  }

  /** for: the clauses and body, desugared into the while loop they stand
      for. */
  function ForAt(tokens: seq<Token>, p: nat): (r: Parsed<Stmt>)
    requires EndsWithEof(tokens) && p < |tokens|
    ensures p <= r.pos < |tokens|
    ensures r.outcome.Ok? ==> r.pos > p && StmtShaped(r.outcome.value)
    decreases |tokens| - p, 23
  {
    var clauses := ForClausesAt(tokens, p);
    if clauses.outcome.Err? then Fail(clauses)
    else
      DesugarForShaped(clauses.outcome.value);
      Parsed(Ok(DesugarFor(clauses.outcome.value)), clauses.pos)
  }

  /** The clauses of a `for`: `(`, initializer, condition, `;`, increment,
      `)`, then the body. */
  function ForClausesAt(tokens: seq<Token>, p: nat): (r: Parsed<ForClauses>)
    requires EndsWithEof(tokens) && p < |tokens|
    ensures p <= r.pos < |tokens|
    ensures r.outcome.Ok? ==> var f := r.outcome.value;
      && r.pos > p && OptStmtShaped(f.init) && (f.cond.Some? ==> Shaped(f.cond.value))
      && (f.incr.Some? ==> Shaped(f.incr.value)) && StmtShaped(f.body)
      && (f.init.None? || f.init.value.Var? || f.init.value.Expression?)
    decreases |tokens| - p, 22
  {
    var open := ConsumeAt(tokens, p, LEFT_PAREN, "Expect '(' after 'for'.");
    if open.outcome.Err? then Fail(open)
    else
      var init := ForInitAt(tokens, open.pos);
      if init.outcome.Err? then Fail(init)
      else
        var condition := ClauseAt(tokens, SEMICOLON, init.pos);
        if condition.outcome.Err? then Fail(condition)
        else
          var semi := ConsumeAt(tokens, condition.pos, SEMICOLON, "Expect ';' after loop condition.");
          if semi.outcome.Err? then Fail(semi)
          else
            var increment := ClauseAt(tokens, RIGHT_PAREN, semi.pos);
            if increment.outcome.Err? then Fail(increment)
            else
              var close := ConsumeAt(tokens, increment.pos, RIGHT_PAREN, "Expect ')' after for clauses.");
              if close.outcome.Err? then Fail(close)
              else
                var body := StatementAt(tokens, close.pos);
                if body.outcome.Err? then Fail(body)
                else Parsed(Ok(ForClauses(init.outcome.value, condition.outcome.value, increment.outcome.value, body.outcome.value)), body.pos)
  }

  /** The initializer of a `for`: none after `;`, a variable declaration
      after `var`, else an expression statement. */
  function ForInitAt(tokens: seq<Token>, p: nat): (r: Parsed<Option<Stmt>>)
    requires EndsWithEof(tokens) && p < |tokens|
    ensures p <= r.pos < |tokens|
    ensures r.outcome.Ok? ==> r.pos > p && OptStmtShaped(r.outcome.value)
    ensures r.outcome.Ok? && r.outcome.value.Some? ==> r.outcome.value.value.Var? || r.outcome.value.value.Expression?
    ensures r.outcome.Ok? && r.outcome.value.None? ==> tokens[p].kind == SEMICOLON
    decreases |tokens| - p, 23
  {
    if MatchAt(tokens, p, {SEMICOLON}) then Parsed(Ok(None), p + 1)
    else
      var init := if MatchAt(tokens, p, {VAR}) then VarDeclarationAt(tokens, p + 1) else ExpressionStatementAt(tokens, p);
      if init.outcome.Err? then Fail(init) else Parsed(Ok(Some(init.outcome.value)), init.pos)
  }

  /** The condition or increment of a `for`: absent when the token that
      ends the clause comes next, else an expression. */
  function ClauseAt(tokens: seq<Token>, terminator: TokenType, p: nat): (r: Parsed<Option<Expr>>)
    requires EndsWithEof(tokens) && p < |tokens|
    ensures p <= r.pos < |tokens|
    ensures r.outcome.Ok? && r.outcome.value.Some? ==> Shaped(r.outcome.value.value)
    ensures r.outcome.Ok? && r.outcome.value.None? <==> MatchAt(tokens, p, {terminator})
    decreases |tokens| - p, 22
  {
    if MatchAt(tokens, p, {terminator}) then Parsed(Ok(None), p)
    else
      var e := ExpressionAt(tokens, p);
      if e.outcome.Err? then Fail(e) else Parsed(Ok(Some(e.outcome.value)), e.pos)
  }

  function ExpressionStatementAt(tokens: seq<Token>, p: nat): (r: Parsed<Stmt>)
    requires EndsWithEof(tokens) && p < |tokens|
    ensures p <= r.pos < |tokens|
    ensures r.outcome.Ok? ==> r.pos > p && r.outcome.value.Expression? && StmtShaped(r.outcome.value)
    decreases |tokens| - p, 22
  {
    var e := ExpressionAt(tokens, p);
    if e.outcome.Err? then Fail(e)
    else Terminated(tokens, Stmt.Expression(e.outcome.value), e.pos, "Expect ';' after expression.")
  }

  function ExpressionAt(tokens: seq<Token>, p: nat): (r: Parsed<Expr>)
    requires EndsWithEof(tokens) && p < |tokens|
    ensures p <= r.pos < |tokens|
    ensures r.outcome.Ok? ==> r.pos > p && Shaped(r.outcome.value)
    decreases |tokens| - p, 21
  {
    AssignmentAt(tokens, p)
  }

  /** assignment: an `or` expression, and when `=` follows it the value,
      itself an assignment (right associative); only a Variable may stand
      on the left. */
  function AssignmentAt(tokens: seq<Token>, p: nat): (r: Parsed<Expr>)
    requires EndsWithEof(tokens) && p < |tokens|
    ensures p <= r.pos < |tokens|
    ensures r.outcome.Ok? ==> r.pos > p && Shaped(r.outcome.value)
    decreases |tokens| - p, 20
  {
    var target := LevelAt(1, tokens, p);
    if target.outcome.Err? then target
    else if !MatchAt(tokens, target.pos, {EQUAL}) then target
    else AssignTo(tokens, target.outcome.value, target.pos, AssignmentAt(tokens, target.pos + 1))
  }

  /** Assignment when no `=` follows the target: the target itself. */
  lemma AssignmentPlain(tokens: seq<Token>, p: nat, target: Parsed<Expr>)
    requires EndsWithEof(tokens) && p < |tokens| && target == LevelAt(1, tokens, p) && target.outcome.Ok?
    requires !MatchAt(tokens, target.pos, {EQUAL})
    ensures AssignmentAt(tokens, p) == target
  {
  }

  /** Assignment when `=` follows the target, with `value` what the
      assignment after it yields. */
  lemma AssignmentOf(tokens: seq<Token>, p: nat, target: Parsed<Expr>, q: nat, value: Parsed<Expr>)
    requires EndsWithEof(tokens) && p < |tokens| && target == LevelAt(1, tokens, p) && target.outcome.Ok?
    requires MatchAt(tokens, target.pos, {EQUAL}) && q == target.pos + 1 && value == AssignmentAt(tokens, q)
    ensures AssignmentAt(tokens, p) == AssignTo(tokens, target.outcome.value, target.pos, value)
  {
    assert AssignmentAt(tokens, p) == AssignTo(tokens, target.outcome.value, target.pos, AssignmentAt(tokens, target.pos + 1));
  }

  /** The node `target = value` builds once the value after the `=` is
      parsed: the value's own error if it failed, an Assign when the target
      is a Variable, else the error reported at the `=` with the cursor
      after the value. */
  function AssignTo(tokens: seq<Token>, target: Expr, equals: nat, value: Parsed<Expr>): (r: Parsed<Expr>)
    requires EndsWithEof(tokens) && equals < value.pos < |tokens| && Shaped(target)
    requires value.outcome.Ok? ==> Shaped(value.outcome.value)
    ensures r.pos == value.pos
    ensures value.outcome.Err? ==> r == value
    ensures value.outcome.Ok? ==> (r.outcome.Ok? <==> target.Variable?)
    ensures value.outcome.Ok? && r.outcome.Ok? ==>
      r.outcome.value == Assign(target.name, target.id, value.outcome.value) && Shaped(r.outcome.value)
    ensures value.outcome.Ok? && r.outcome.Err? ==>
      r.outcome.error == ErrorAt(tokens[equals], "Invalid assignment target.")
  {
    if value.outcome.Err? then value
    else if target.Variable? then Parsed(Ok(Assign(target.name, target.id, value.outcome.value)), value.pos)
    else Parsed(Err(ErrorAt(tokens[equals], "Invalid assignment target.")), value.pos)
  }

  /** The loop levels `or` (1) to `factor` (6): an operand of the next
      level, then the loop over the level's operators. */
  function LevelAt(n: nat, tokens: seq<Token>, p: nat): (r: Parsed<Expr>)
    requires 1 <= n <= 6 && EndsWithEof(tokens) && p < |tokens|
    ensures p <= r.pos < |tokens|
    ensures r.outcome.Ok? ==> r.pos > p && Shaped(r.outcome.value) && Level(r.outcome.value) >= n
    decreases |tokens| - p, 20 - 2 * n
  {
    var first := if n == 6 then UnaryAt(tokens, p) else LevelAt(n + 1, tokens, p);
    if first.outcome.Err? then first
    else LevelRest(n, tokens, first.outcome.value, first.pos)
  }

  /** The loop of level n: while one of its operators follows, the node
      built so far becomes the left operand of a new node (left
      associativity). */
  function LevelRest(n: nat, tokens: seq<Token>, left: Expr, p: nat): (r: Parsed<Expr>)
    requires 1 <= n <= 6 && EndsWithEof(tokens) && p < |tokens|
    requires Shaped(left) && Level(left) >= n
    ensures p <= r.pos < |tokens|
    ensures r.outcome.Ok? ==> Shaped(r.outcome.value) && Level(r.outcome.value) >= n
    decreases |tokens| - p, 20 - 2 * n
  {
    if !MatchAt(tokens, p, LevelOps(n)) then Parsed(Ok(left), p)
    else
      var right := if n == 6 then UnaryAt(tokens, p + 1) else LevelAt(n + 1, tokens, p + 1);
      if right.outcome.Err? then right
      else LevelRest(n, tokens, LevelNode(n, left, tokens[p], right.outcome.value), right.pos)
  }

  /** A level's loop when no operator of the level follows: it ends with
      the node built so far. */
  lemma LevelRestEnd(n: nat, tokens: seq<Token>, left: Expr, p: nat)
    requires 1 <= n <= 6 && EndsWithEof(tokens) && p < |tokens|
    requires Shaped(left) && Level(left) >= n
    requires !MatchAt(tokens, p, LevelOps(n))
    ensures LevelRest(n, tokens, left, p) == Parsed(Ok(left), p)
  {
  }

  /** One iteration of a level's loop, with `right` what the operand after
      the operator yields: its error ends the loop, else it becomes the
      right side of the next node. */
  lemma LevelRestStep(n: nat, tokens: seq<Token>, left: Expr, p: nat, q: nat, right: Parsed<Expr>)
    requires 1 <= n <= 6 && EndsWithEof(tokens) && p < |tokens| && q == p + 1
    requires Shaped(left) && Level(left) >= n
    requires MatchAt(tokens, p, LevelOps(n))
    requires right == if n == 6 then UnaryAt(tokens, q) else LevelAt(n + 1, tokens, q)
    ensures right.outcome.Err? ==> LevelRest(n, tokens, left, p) == right
    ensures right.outcome.Ok? ==>
      LevelRest(n, tokens, left, p) == LevelRest(n, tokens, LevelNode(n, left, tokens[p], right.outcome.value), right.pos)
  {
  }

  /** unary: `!` or `-` applied to a unary, else a call. */
  function UnaryAt(tokens: seq<Token>, p: nat): (r: Parsed<Expr>)
    requires EndsWithEof(tokens) && p < |tokens|
    ensures p <= r.pos < |tokens|
    ensures r.outcome.Ok? ==> r.pos > p && Shaped(r.outcome.value) && Level(r.outcome.value) >= 7
    decreases |tokens| - p, 3
  {
    if MatchAt(tokens, p, {BANG, MINUS}) then
      var right := UnaryAt(tokens, p + 1);
      if right.outcome.Err? then right
      else Parsed(Ok(Expr.Unary(tokens[p], right.outcome.value)), right.pos)
    else CallAt(tokens, p)
  }

  /** call: a primary, then its argument lists and indexes, applied left
      to right. */
  function CallAt(tokens: seq<Token>, p: nat): (r: Parsed<Expr>)
    requires EndsWithEof(tokens) && p < |tokens|
    ensures p <= r.pos < |tokens|
    ensures r.outcome.Ok? ==> r.pos > p && Shaped(r.outcome.value) && Level(r.outcome.value) >= 8
    decreases |tokens| - p, 2
  {
    var first := PrimaryAt(tokens, p);
    if first.outcome.Err? then first
    else CallRest(tokens, first.outcome.value, first.pos)
  }

  function CallRest(tokens: seq<Token>, callee: Expr, p: nat): (r: Parsed<Expr>)
    requires EndsWithEof(tokens) && p < |tokens|
    requires Shaped(callee) && Level(callee) >= 8
    ensures p <= r.pos < |tokens|
    ensures r.outcome.Ok? ==> Shaped(r.outcome.value) && Level(r.outcome.value) >= 8
    decreases |tokens| - p, 2
  {
    if MatchAt(tokens, p, {LEFT_PAREN}) then
      var c := FinishCallAt(tokens, callee, p + 1);
      if c.outcome.Err? then c else CallRest(tokens, c.outcome.value, c.pos)
    else if MatchAt(tokens, p, {LEFT_BRACKET}) then
      var g := IndexAt(tokens, callee, p + 1);
      if g.outcome.Err? then g else CallRest(tokens, g.outcome.value, g.pos)
    else Parsed(Ok(callee), p)
  }

  /** The arguments after `(`: none when `)` follows at once. */
  function FinishCallAt(tokens: seq<Token>, callee: Expr, p: nat): (r: Parsed<Expr>)
    requires EndsWithEof(tokens) && p < |tokens|
    requires Shaped(callee) && Level(callee) >= 8
    ensures p <= r.pos < |tokens|
    ensures r.outcome.Ok? ==> r.pos > p && r.outcome.value.Call? && r.outcome.value.callee == callee && Shaped(r.outcome.value)
    decreases |tokens| - p, 23
  {
    if MatchAt(tokens, p, {RIGHT_PAREN}) then CloseCall(tokens, callee, [], p)
    else ArgumentsAt(tokens, callee, [], p)
  }

  /** The argument loop, with `args` the arguments read so far: the 256th
      argument is refused. */
  function ArgumentsAt(tokens: seq<Token>, callee: Expr, args: seq<Expr>, p: nat): (r: Parsed<Expr>)
    requires EndsWithEof(tokens) && p < |tokens|
    requires Shaped(callee) && Level(callee) >= 8
    requires |args| <= 255 && forall i :: 0 <= i < |args| ==> Shaped(args[i])
    ensures p <= r.pos < |tokens|
    ensures r.outcome.Ok? ==> r.pos > p && r.outcome.value.Call? && r.outcome.value.callee == callee && Shaped(r.outcome.value)
    decreases |tokens| - p, 22
  {
    if |args| >= 255 then Parsed(Err(ErrorAt(tokens[p], "Cannot have more than 255 arguments.")), p)
    else
      var a := ExpressionAt(tokens, p);
      if a.outcome.Err? then a
      else if MatchAt(tokens, a.pos, {COMMA}) then ArgumentsAt(tokens, callee, args + [a.outcome.value], a.pos + 1)
      else CloseCall(tokens, callee, args + [a.outcome.value], a.pos)
  }

  function CloseCall(tokens: seq<Token>, callee: Expr, args: seq<Expr>, p: nat): (r: Parsed<Expr>)
    requires EndsWithEof(tokens) && p < |tokens|
    requires Shaped(callee) && Level(callee) >= 8
    requires |args| <= 255 && forall i :: 0 <= i < |args| ==> Shaped(args[i])
    ensures p <= r.pos < |tokens|
    ensures r.outcome.Ok? ==> r.pos == p + 1 && r.outcome.value == Expr.Call(callee, tokens[p], args) && Shaped(r.outcome.value)
  {
    var paren := ConsumeAt(tokens, p, RIGHT_PAREN, "Expect ')' after arguments.");
    if paren.outcome.Err? then Fail(paren) else Parsed(Ok(Expr.Call(callee, paren.outcome.value, args)), paren.pos)
  }

  /** The index after `[` and the closing bracket. */
  function IndexAt(tokens: seq<Token>, target: Expr, p: nat): (r: Parsed<Expr>)
    requires EndsWithEof(tokens) && p < |tokens|
    requires Shaped(target) && Level(target) >= 8
    ensures p <= r.pos < |tokens|
    ensures r.outcome.Ok? ==> r.pos > p && r.outcome.value.Get? && r.outcome.value.obj == target && Shaped(r.outcome.value)
    decreases |tokens| - p, 22
  {
    var index := ExpressionAt(tokens, p);
    if index.outcome.Err? then index
    else
      var close := ConsumeAt(tokens, index.pos, RIGHT_BRACKET, "Expect ']' after index.");
      if close.outcome.Err? then Fail(close) else Parsed(Ok(Get(target, index.outcome.value)), close.pos)
  }

  /** primary: a literal, a list, a variable or a parenthesised
      expression; any other token is the "Expect expression." error. */
  function PrimaryAt(tokens: seq<Token>, p: nat): (r: Parsed<Expr>)
    requires EndsWithEof(tokens) && p < |tokens|
    ensures p <= r.pos < |tokens|
    ensures r.outcome.Ok? ==> r.pos > p && Shaped(r.outcome.value) && Level(r.outcome.value) >= 8
    decreases |tokens| - p, 1
  {
    if MatchAt(tokens, p, {FALSE}) then Parsed(Ok(Literal(BoolLit(false))), p + 1)
    else if MatchAt(tokens, p, {TRUE}) then Parsed(Ok(Literal(BoolLit(true))), p + 1)
    else if MatchAt(tokens, p, {NIL}) then Parsed(Ok(Literal(NilLit)), p + 1)
    else if MatchAt(tokens, p, {NUMBER, STRING}) then Parsed(Ok(Literal(LiteralOf(tokens[p].literal))), p + 1)
    else if MatchAt(tokens, p, {LEFT_BRACKET}) then ListAt(tokens, p + 1)
    else if MatchAt(tokens, p, {IDENTIFIER}) then Parsed(Ok(Variable(tokens[p], p)), p + 1)
    else if MatchAt(tokens, p, {LEFT_PAREN}) then
      var e := ExpressionAt(tokens, p + 1);
      if e.outcome.Err? then e
      else
        var close := ConsumeAt(tokens, e.pos, RIGHT_PAREN, "Expect ')' after expression.");
        if close.outcome.Err? then Fail(close) else Parsed(Ok(Grouping(e.outcome.value)), close.pos)
    else Parsed(Err(ErrorAt(tokens[p], "Expect expression.")), p)
  }

  /** A list literal after `[`: none when `]` follows at once. */
  function ListAt(tokens: seq<Token>, p: nat): (r: Parsed<Expr>)
    requires EndsWithEof(tokens) && p < |tokens|
    ensures p <= r.pos < |tokens|
    ensures r.outcome.Ok? ==> r.pos > p && r.outcome.value.ListExpr? && Shaped(r.outcome.value)
    decreases |tokens| - p, 23
  {
    if MatchAt(tokens, p, {RIGHT_BRACKET}) then CloseList(tokens, [], p)
    else ElementsAt(tokens, [], p)
  }

  /** The element loop, with `es` the elements read so far. */
  function ElementsAt(tokens: seq<Token>, es: seq<Expr>, p: nat): (r: Parsed<Expr>)
    requires EndsWithEof(tokens) && p < |tokens|
    requires forall i :: 0 <= i < |es| ==> Shaped(es[i])
    ensures p <= r.pos < |tokens|
    ensures r.outcome.Ok? ==> r.pos > p && r.outcome.value.ListExpr? && Shaped(r.outcome.value)
    decreases |tokens| - p, 22
  {
    var e := ExpressionAt(tokens, p);
    if e.outcome.Err? then e
    else if MatchAt(tokens, e.pos, {COMMA}) then ElementsAt(tokens, es + [e.outcome.value], e.pos + 1)
    else CloseList(tokens, es + [e.outcome.value], e.pos)
  }

  function CloseList(tokens: seq<Token>, es: seq<Expr>, p: nat): (r: Parsed<Expr>)
    requires EndsWithEof(tokens) && p < |tokens|
    requires forall i :: 0 <= i < |es| ==> Shaped(es[i])
    ensures p <= r.pos < |tokens|
    ensures r.outcome.Ok? ==> r.pos == p + 1 && r.outcome.value == ListExpr(es) && Shaped(r.outcome.value)
  {
    var close := ConsumeAt(tokens, p, RIGHT_BRACKET, "Expect ']' after list elements.");
    if close.outcome.Err? then Fail(close) else Parsed(Ok(ListExpr(es)), close.pos)
  }

  // ---------------------------------------------------------------------
  // One step of a rule, with the positions named
  // ---------------------------------------------------------------------

  /** Which rule `statement` picks for the token at `p`. */
  lemma StatementDispatch(tokens: seq<Token>, p: nat)
    requires EndsWithEof(tokens) && p < |tokens|
    ensures MatchAt(tokens, p, {PRINT}) ==> StatementAt(tokens, p) == PrintAt(tokens, p + 1)
    ensures !MatchAt(tokens, p, {PRINT}) && MatchAt(tokens, p, {LEFT_BRACE}) ==>
      var b := BlockAt(tokens, p + 1);
      StatementAt(tokens, p) == if b.outcome.Err? then Fail(b) else Parsed(Ok(Stmt.Block(b.outcome.value)), b.pos)
    ensures !MatchAt(tokens, p, {PRINT}) && !MatchAt(tokens, p, {LEFT_BRACE}) && MatchAt(tokens, p, {IF}) ==>
      StatementAt(tokens, p) == IfAt(tokens, p + 1)
    ensures (!MatchAt(tokens, p, {PRINT}) && !MatchAt(tokens, p, {LEFT_BRACE}) && !MatchAt(tokens, p, {IF})
      && MatchAt(tokens, p, {WHILE})) ==> StatementAt(tokens, p) == WhileAt(tokens, p + 1)
    ensures (!MatchAt(tokens, p, {PRINT}) && !MatchAt(tokens, p, {LEFT_BRACE}) && !MatchAt(tokens, p, {IF})
      && !MatchAt(tokens, p, {WHILE}) && MatchAt(tokens, p, {FOR})) ==> StatementAt(tokens, p) == ForAt(tokens, p + 1)
    ensures (!MatchAt(tokens, p, {PRINT}) && !MatchAt(tokens, p, {LEFT_BRACE}) && !MatchAt(tokens, p, {IF})
      && !MatchAt(tokens, p, {WHILE}) && !MatchAt(tokens, p, {FOR}) && MatchAt(tokens, p, {RETURN})) ==>
      StatementAt(tokens, p) == ReturnAt(tokens, p + 1)
    ensures (!MatchAt(tokens, p, {PRINT}) && !MatchAt(tokens, p, {LEFT_BRACE}) && !MatchAt(tokens, p, {IF})
      && !MatchAt(tokens, p, {WHILE}) && !MatchAt(tokens, p, {FOR}) && !MatchAt(tokens, p, {RETURN})) ==>
      StatementAt(tokens, p) == ExpressionStatementAt(tokens, p)
  {
  }

  /** Which rule `declaration` picks for the token at `p`. */
  lemma DeclRuleDispatch(tokens: seq<Token>, p: nat)
    requires EndsWithEof(tokens) && p < |tokens| && tokens[p].kind != EOF
    ensures MatchAt(tokens, p, {FUN}) ==> DeclRuleAt(tokens, p) == FunctionAt(tokens, p + 1, "function")
    ensures !MatchAt(tokens, p, {FUN}) && MatchAt(tokens, p, {VAR}) ==> DeclRuleAt(tokens, p) == VarDeclarationAt(tokens, p + 1)
    ensures !MatchAt(tokens, p, {FUN}) && !MatchAt(tokens, p, {VAR}) ==> DeclRuleAt(tokens, p) == StatementAt(tokens, p)
  {
  }

  /** `declaration` once its rule has run: None after resynchronising when
      the rule failed, else the statement. */
  lemma DeclarationOf(tokens: seq<Token>, p: nat, res: Parsed<Stmt>)
    requires EndsWithEof(tokens) && p < |tokens| && tokens[p].kind != EOF && res == DeclRuleAt(tokens, p)
    ensures res.outcome.Err? ==> DeclarationAt(tokens, p) == Parsed(Ok(None), SyncFrom(tokens, AdvancedFrom(tokens, res.pos)))
    ensures res.outcome.Ok? ==> DeclarationAt(tokens, p) == Parsed(Ok(Some(res.outcome.value)), res.pos)
  {
  }

  /** One step of the call loop after `(`, with `c` what finish_call yields. */
  lemma CallRestParen(tokens: seq<Token>, callee: Expr, p: nat, q: nat, c: Parsed<Expr>)
    requires EndsWithEof(tokens) && p < |tokens| && Shaped(callee) && Level(callee) >= 8
    requires MatchAt(tokens, p, {LEFT_PAREN}) && q == p + 1 && c == FinishCallAt(tokens, callee, q)
    ensures c.outcome.Err? ==> CallRest(tokens, callee, p) == c
    ensures c.outcome.Ok? ==> CallRest(tokens, callee, p) == CallRest(tokens, c.outcome.value, c.pos)
  {
  }

  /** One step of the call loop after `[`, with `g` what the index yields. */
  lemma CallRestBracket(tokens: seq<Token>, callee: Expr, p: nat, q: nat, g: Parsed<Expr>)
    requires EndsWithEof(tokens) && p < |tokens| && Shaped(callee) && Level(callee) >= 8
    requires !MatchAt(tokens, p, {LEFT_PAREN}) && MatchAt(tokens, p, {LEFT_BRACKET})
    requires q == p + 1 && g == IndexAt(tokens, callee, q)
    ensures g.outcome.Err? ==> CallRest(tokens, callee, p) == g
    ensures g.outcome.Ok? ==> CallRest(tokens, callee, p) == CallRest(tokens, g.outcome.value, g.pos)
  {
  }

  /** The call loop ends before any other token. */
  lemma CallRestEnd(tokens: seq<Token>, callee: Expr, p: nat)
    requires EndsWithEof(tokens) && p < |tokens| && Shaped(callee) && Level(callee) >= 8
    requires !MatchAt(tokens, p, {LEFT_PAREN}) && !MatchAt(tokens, p, {LEFT_BRACKET})
    ensures CallRest(tokens, callee, p) == Parsed(Ok(callee), p)
  {
  }

  /** One step of the argument loop, with `a` the argument parsed at `p`
      and `more` the arguments with it. */
  lemma ArgumentsStep(tokens: seq<Token>, callee: Expr, args: seq<Expr>, p: nat, a: Parsed<Expr>, more: seq<Expr>)
    requires EndsWithEof(tokens) && p < |tokens| && Shaped(callee) && Level(callee) >= 8
    requires |args| < 255 && forall i :: 0 <= i < |args| ==> Shaped(args[i])
    requires a == ExpressionAt(tokens, p)
    requires a.outcome.Ok? ==> more == args + [a.outcome.value]
    ensures a.outcome.Err? ==> ArgumentsAt(tokens, callee, args, p) == a
    ensures a.outcome.Ok? ==> |more| <= 255 && forall i :: 0 <= i < |more| ==> Shaped(more[i])
    ensures a.outcome.Ok? && MatchAt(tokens, a.pos, {COMMA}) ==>
      ArgumentsAt(tokens, callee, args, p) == ArgumentsAt(tokens, callee, more, a.pos + 1)
    ensures a.outcome.Ok? && !MatchAt(tokens, a.pos, {COMMA}) ==>
      ArgumentsAt(tokens, callee, args, p) == CloseCall(tokens, callee, more, a.pos)
  {
    if a.outcome.Ok? {
      assert forall i :: 0 <= i < |more| ==> Shaped(more[i]) by {
        forall i | 0 <= i < |more|
          ensures Shaped(more[i])
        {
          if i < |args| {
            assert more[i] == args[i];
          }
        }
      }
    }
  }

  /** One step of the parameter loop. */
  lemma ParametersStep(tokens: seq<Token>, ps: seq<Token>, p: nat, t: Parsed<Token>)
    requires EndsWithEof(tokens) && p < |tokens|
    requires |ps| < 255 && forall i :: 0 <= i < |ps| ==> ps[i].kind == IDENTIFIER
    requires t == ConsumeAt(tokens, p, IDENTIFIER, "Expect parameter name.")
    ensures t.outcome.Err? ==> ParametersAt(tokens, ps, p) == Fail(t)
    ensures t.outcome.Ok? && MatchAt(tokens, t.pos, {COMMA}) ==>
      ParametersAt(tokens, ps, p) == ParametersAt(tokens, ps + [t.outcome.value], t.pos + 1)
    ensures t.outcome.Ok? && !MatchAt(tokens, t.pos, {COMMA}) ==>
      ParametersAt(tokens, ps, p) == Parsed(Ok(ps + [t.outcome.value]), t.pos)
  {
  }

  /** `function` once the name and `(` are read: the parameter list, then
      the rest. */
  lemma FunctionOf(tokens: seq<Token>, p: nat, kind: string, name: Parsed<Token>, open: Parsed<Token>, params: Parsed<seq<Token>>)
    requires EndsWithEof(tokens) && p < |tokens|
    requires name == ConsumeAt(tokens, p, IDENTIFIER, "Expect " + kind + " name.")
    requires name.outcome.Err? ==> open == name
    requires name.outcome.Ok? ==> open == ConsumeAt(tokens, name.pos, LEFT_PAREN, "Expect '(' after " + kind + " name.")
    requires name.outcome.Ok? && open.outcome.Ok? ==> params == ParamListAt(tokens, open.pos)
    ensures name.outcome.Err? ==> FunctionAt(tokens, p, kind) == Fail(name)
    ensures name.outcome.Ok? && open.outcome.Err? ==> FunctionAt(tokens, p, kind) == Fail(open)
    ensures name.outcome.Ok? && open.outcome.Ok? && params.outcome.Err? ==> FunctionAt(tokens, p, kind) == Fail(params)
    ensures name.outcome.Ok? && open.outcome.Ok? && params.outcome.Ok? ==>
      FunctionAt(tokens, p, kind) == FunctionBodyAt(tokens, name.outcome.value, params.outcome.value, params.pos, kind)
  {
  }

  // ---------------------------------------------------------------------
  // What the grammar yields
  // ---------------------------------------------------------------------

  /** The positions at which `parse` starts a declaration: p, then wherever
      the previous one left the cursor, until EOF. */
  function DeclStarts(tokens: seq<Token>, p: nat): (r: seq<nat>)
    requires EndsWithEof(tokens) && p < |tokens|
    ensures forall i :: 0 <= i < |r| ==> p <= r[i] < |tokens| && tokens[r[i]].kind != EOF
    decreases |tokens| - p
  {
    if tokens[p].kind == EOF then [] else [p] + DeclStarts(tokens, DeclarationAt(tokens, p).pos)
  }

  /** parse yields one entry per declaration, in order: the i-th entry is
      what `declaration` yields at the i-th start, the first start is
      where parsing began, each later one is where the one before left the
      cursor, and the last one leaves the cursor at EOF. */
  lemma {:induction false} ProgramByDeclarations(tokens: seq<Token>, p: nat)
    requires EndsWithEof(tokens) && p < |tokens|
    ensures var prog, starts := ProgramAt(tokens, p), DeclStarts(tokens, p);
      && |prog| == |starts|
      && (forall i :: 0 <= i < |starts| ==> prog[i] == DeclarationAt(tokens, starts[i]).outcome.value)
      && (|starts| > 0 ==> starts[0] == p)
      && (|starts| == 0 ==> tokens[p].kind == EOF)
      && (forall i :: 0 <= i < |starts| - 1 ==> starts[i + 1] == DeclarationAt(tokens, starts[i]).pos)
      && (|starts| > 0 ==> tokens[DeclarationAt(tokens, starts[|starts| - 1]).pos].kind == EOF)
    decreases |tokens| - p
  {
    if tokens[p].kind != EOF {
      var d := DeclarationAt(tokens, p);
      ProgramByDeclarations(tokens, d.pos);
      var prog, starts := ProgramAt(tokens, p), DeclStarts(tokens, p);
      var prog', starts' := ProgramAt(tokens, d.pos), DeclStarts(tokens, d.pos);
      assert prog == [d.outcome.value] + prog';
      assert starts == [p] + starts';
      assert forall i :: 1 <= i < |starts| ==> starts[i] == starts'[i - 1] && prog[i] == prog'[i - 1];
    }
  }

  /** Assignment to anything but a variable, such as `a + b = c`, is the
      "Invalid assignment target." error reported at the `=`; the value
      after it is still parsed first, so its own error comes first. */
  lemma {:induction false} AssignmentInvalidTarget(tokens: seq<Token>, p: nat)
    requires EndsWithEof(tokens) && p < |tokens|
    requires LevelAt(1, tokens, p).outcome.Ok? && !LevelAt(1, tokens, p).outcome.value.Variable?
    requires MatchAt(tokens, LevelAt(1, tokens, p).pos, {EQUAL})
    ensures var target := LevelAt(1, tokens, p); var value := AssignmentAt(tokens, target.pos + 1);
      && (value.outcome.Err? ==> AssignmentAt(tokens, p) == value)
      && (value.outcome.Ok? ==>
            AssignmentAt(tokens, p) == Parsed(Err(ErrorAt(tokens[target.pos], "Invalid assignment target.")), value.pos))
  {
    var target := LevelAt(1, tokens, p);
    var value := AssignmentAt(tokens, target.pos + 1);
    AssignmentOf(tokens, p, target, target.pos + 1, value);
    if value.outcome.Ok? {
      assert AssignTo(tokens, target.outcome.value, target.pos, value)
        == Parsed(Err(ErrorAt(tokens[target.pos], "Invalid assignment target.")), value.pos);
    }
  }

  /** `a = b = c` groups to the right: the value of an assignment to a
      variable is the whole assignment that follows the `=`. */
  lemma {:induction false} AssignmentRightAssociative(tokens: seq<Token>, p: nat)
    requires EndsWithEof(tokens) && p < |tokens|
    requires LevelAt(1, tokens, p).outcome.Ok? && LevelAt(1, tokens, p).outcome.value.Variable?
    requires MatchAt(tokens, LevelAt(1, tokens, p).pos, {EQUAL})
    ensures var target := LevelAt(1, tokens, p); var value := AssignmentAt(tokens, target.pos + 1);
      && (value.outcome.Err? ==> AssignmentAt(tokens, p) == value)
      && (value.outcome.Ok? ==>
            AssignmentAt(tokens, p) == Parsed(Ok(Assign(target.outcome.value.name, target.outcome.value.id, value.outcome.value)), value.pos))
  {
    var target := LevelAt(1, tokens, p);
    var value := AssignmentAt(tokens, target.pos + 1);
    AssignmentOf(tokens, p, target, target.pos + 1, value);
    if value.outcome.Ok? {
      assert AssignTo(tokens, target.outcome.value, target.pos, value)
        == Parsed(Ok(Assign(target.outcome.value.name, target.outcome.value.id, value.outcome.value)), value.pos);
    }
  }

  // ---------------------------------------------------------------------
  // The parser
  // ---------------------------------------------------------------------

  class Parser {
    const tokens: seq<Token>
    var current: nat

    ghost predicate Valid()
      reads this
    {
      EndsWithEof(tokens) && current < |tokens|
    }

    constructor (tokens: seq<Token>)
      requires EndsWithEof(tokens)
      ensures Valid() && this.tokens == tokens && current == 0
    {
      this.tokens := tokens;
      current := 0;
    }

    /** parse: declarations until EOF, in order. */
    method Parse() returns (statements: seq<Option<Stmt>>)
      requires Valid()
      modifies this
      ensures Valid() && IsAtEnd()
      ensures statements == ProgramAt(tokens, old(current))
    {
      statements := [];
      while !IsAtEnd()
        invariant Valid()
        invariant statements + ProgramAt(tokens, current) == ProgramAt(tokens, old(current))
        decreases |tokens| - current
      {
        ghost var before := current;
        var d := Declaration();
        assert ProgramAt(tokens, before) == [d] + ProgramAt(tokens, current);
        assert statements + ProgramAt(tokens, before) == (statements + [d]) + ProgramAt(tokens, current);
        statements := statements + [d];
      }
      assert ProgramAt(tokens, current) == [];
    }

    /** declaration: a function, a variable or a statement; on a ParseError
        it resynchronises and yields None. It always consumes a token. */
    method Declaration() returns (r: Option<Stmt>)
      requires Valid() && !IsAtEnd()
      modifies this
      ensures Valid() && Parsed(Ok(r), current) == DeclarationAt(tokens, old(current))
      decreases |tokens| - current, 14
    {
      DeclRuleDispatch(tokens, current);
      ghost var start := current;
      var res: Result<Stmt, string>;
      var isFun := Match({FUN});
      if isFun {
        res := Function("function");
      } else {
        var isVar := Match({VAR});
        if isVar {
          res := VarDeclaration();
        } else {
          res := Statement();
        }
      }
      DeclarationOf(tokens, start, Parsed(res, current));
      if res.Err? {
        Synchronize();
        return None;
      }
      return Some(res.value);
    }

    method Function(kind: string) returns (r: Result<Stmt, string>)
      requires Valid()
      modifies this
      ensures Valid() && Parsed(r, current) == FunctionAt(tokens, old(current), kind)
      decreases |tokens| - current, 12
    {
      ghost var p0 := current;
      var name := Consume(IDENTIFIER, "Expect " + kind + " name.");
      ghost var named := Parsed(name, current);
      if name.Err? {
        FunctionOf(tokens, p0, kind, named, named, Parsed(Ok([]), 0));
        return Err(name.error);
      }
      var open := Consume(LEFT_PAREN, "Expect '(' after " + kind + " name.");
      ghost var afterParen := Parsed(open, current);
      if open.Err? {
        FunctionOf(tokens, p0, kind, named, afterParen, Parsed(Ok([]), 0));
        return Err(open.error);
      }
      var params := ParameterList();
      FunctionOf(tokens, p0, kind, named, afterParen, Parsed(params, current));
      if params.Err? {
        return Err(params.error);
      }
      r := FunctionBody(name.value, params.value, kind);
    }

    /** The parameters after `(`, up to the `)`. */
    method ParameterList() returns (r: Result<seq<Token>, string>)
      requires Valid()
      modifies this
      ensures Valid() && Parsed(r, current) == ParamListAt(tokens, old(current))
    {
      var params: seq<Token> := [];
      if Check(RIGHT_PAREN) {
        return Ok(params);
      }
      while true
        invariant Valid() && current >= old(current) && |params| <= 255
        invariant forall i :: 0 <= i < |params| ==> params[i].kind == IDENTIFIER
        invariant ParametersAt(tokens, params, current) == ParamListAt(tokens, old(current))
        decreases |tokens| - current
      {
        if |params| >= 255 {
          return Err(ErrorAt(Peek(), "Cannot have more than 255 parameters."));
        }
        ghost var at := current;
        var p := Consume(IDENTIFIER, "Expect parameter name.");
        ghost var pp := Parsed(p, current);
        ParametersStep(tokens, params, at, pp);
        if p.Err? {
          return Err(p.error);
        }
        params := params + [p.value];
        var comma := Match({COMMA});
        assert comma == MatchAt(tokens, pp.pos, {COMMA});
        assert current == if comma then pp.pos + 1 else pp.pos;
        if !comma {
          return Ok(params);
        }
      }
    }

    /** The rest of a function once its parameters are read: `)`, `{` and
        the body. */
    method FunctionBody(name: Token, params: seq<Token>, kind: string) returns (r: Result<Stmt, string>)
      requires Valid()
      requires name.kind == IDENTIFIER && |params| <= 255 && forall i :: 0 <= i < |params| ==> params[i].kind == IDENTIFIER
      modifies this
      ensures Valid() && Parsed(r, current) == FunctionBodyAt(tokens, name, params, old(current), kind)
      decreases |tokens| - current, 12
    {
      var close := Consume(RIGHT_PAREN, "Expect ')' after parameters.");
      if close.Err? {
        return Err(close.error);
      }
      var brace := Consume(LEFT_BRACE, "Expect '{' before " + kind + " body.");
      if brace.Err? {
        return Err(brace.error);
      }
      var body := Block();
      if body.Err? {
        return Err(body.error);
      }
      return Ok(Stmt.Function(name, params, body.value));
    }

    method VarDeclaration() returns (r: Result<Stmt, string>)
      requires Valid()
      modifies this
      ensures Valid() && Parsed(r, current) == VarDeclarationAt(tokens, old(current))
      decreases |tokens| - current, 12
    {
      var name := Consume(IDENTIFIER, "Expect variable name.");
      if name.Err? {
        return Err(name.error);
      }
      var initializer: Option<Expr> := None;
      var eq := Match({EQUAL});
      if eq {
        var e := Expression();
        if e.Err? {
          return Err(e.error);
        }
        initializer := Some(e.value);
      }
      var semi := Consume(SEMICOLON, "Expect ';' after variable declaration.");
      if semi.Err? {
        return Err(semi.error);
      }
      return Ok(Var(name.value, initializer));
    }

    method Statement() returns (r: Result<Stmt, string>)
      requires Valid()
      modifies this
      ensures Valid() && Parsed(r, current) == StatementAt(tokens, old(current))
      decreases |tokens| - current, 13
    {
      StatementDispatch(tokens, current);
      var m := Match({PRINT});
      if m {
        r := PrintStatement();
        return;
      }
      m := Match({LEFT_BRACE});
      if m {
        var b := Block();
        if b.Err? {
          return Err(b.error);
        }
        return Ok(Stmt.Block(b.value));
      }
      m := Match({IF});
      if m {
        r := IfStatement();
        return;
      }
      m := Match({WHILE});
      if m {
        r := WhileStatement();
        return;
      }
      m := Match({FOR});
      if m {
        var parts;
        r, parts := ForStatement();
        return;
      }
      m := Match({RETURN});
      if m {
        r := ReturnStatement();
        return;
      }
      r := ExpressionStatement();
    }

    method PrintStatement() returns (r: Result<Stmt, string>)
      requires Valid()
      modifies this
      ensures Valid() && Parsed(r, current) == PrintAt(tokens, old(current))
      decreases |tokens| - current, 12
    {
      var value := Expression();
      if value.Err? {
        return Err(value.error);
      }
      var semi := Consume(SEMICOLON, "Expect ';' after value.");
      if semi.Err? {
        return Err(semi.error);
      }
      return Ok(Print(value.value));
    }

    method ReturnStatement() returns (r: Result<Stmt, string>)
      requires Valid() && Previous().kind == RETURN
      modifies this
      ensures Valid() && Parsed(r, current) == ReturnAt(tokens, old(current))
      decreases |tokens| - current, 12
    {
      var keyword := Previous();
      var value: Option<Expr> := None;
      if !Check(SEMICOLON) {
        var e := Expression();
        if e.Err? {
          return Err(e.error);
        }
        value := Some(e.value);
      }
      var semi := Consume(SEMICOLON, "Expect ';' after return value.");
      if semi.Err? {
        return Err(semi.error);
      }
      return Ok(Return(keyword, value));
    }

    /** block: declarations up to the closing brace. */
    method Block() returns (r: Result<seq<Option<Stmt>>, string>)
      requires Valid()
      modifies this
      ensures Valid() && Parsed(r, current) == BlockAt(tokens, old(current))
      decreases |tokens| - current, 15
    {
      var statements: seq<Option<Stmt>> := [];
      while !Check(RIGHT_BRACE) && !IsAtEnd()
        invariant Valid() && old(current) <= current
        invariant forall i :: 0 <= i < |statements| ==> OptStmtShaped(statements[i])
        invariant BlockFrom(tokens, statements, current) == BlockAt(tokens, old(current))
        decreases |tokens| - current
      {
        var d := Declaration();
        statements := statements + [d];
      }
      var close := Consume(RIGHT_BRACE, "Expect '}' after block.");
      if close.Err? {
        return Err(close.error);
      }
      return Ok(statements);
    }

    method IfStatement() returns (r: Result<Stmt, string>)
      requires Valid()
      modifies this
      ensures Valid() && Parsed(r, current) == IfAt(tokens, old(current))
      decreases |tokens| - current, 12
    {
      var open := Consume(LEFT_PAREN, "Expect '(' after 'if'.");
      if open.Err? {
        return Err(open.error);
      }
      var condition := Expression();
      if condition.Err? {
        return Err(condition.error);
      }
      var close := Consume(RIGHT_PAREN, "Expect ')' after if condition.");
      if close.Err? {
        return Err(close.error);
      }
      var thenBranch := Statement();
      if thenBranch.Err? {
        return Err(thenBranch.error);
      }
      var elseBranch: Option<Stmt> := None;
      var hasElse := Match({ELSE});
      if hasElse {
        var e := Statement();
        if e.Err? {
          return Err(e.error);
        }
        elseBranch := Some(e.value);
      }
      return Ok(If(condition.value, thenBranch.value, elseBranch));
    }

    method WhileStatement() returns (r: Result<Stmt, string>)
      requires Valid()
      modifies this
      ensures Valid() && Parsed(r, current) == WhileAt(tokens, old(current))
      decreases |tokens| - current, 12
    {
      var open := Consume(LEFT_PAREN, "Expect '(' after 'while'.");
      if open.Err? {
        return Err(open.error);
      }
      var condition := Expression();
      if condition.Err? {
        return Err(condition.error);
      }
      var close := Consume(RIGHT_PAREN, "Expect ')' after condition.");
      if close.Err? {
        return Err(close.error);
      }
      var body := Statement();
      if body.Err? {
        return Err(body.error);
      }
      return Ok(While(condition.value, body.value));
    }

    /** for: parses the three clauses and the body and returns the while
        loop they stand for. */
    method ForStatement() returns (r: Result<Stmt, string>, parts: ForClauses)
      requires Valid()
      modifies this
      ensures Valid() && Parsed(r, current) == ForAt(tokens, old(current))
      ensures r.Ok? ==> Parsed(Ok(parts), current) == ForClausesAt(tokens, old(current))
      decreases |tokens| - current, 12
    {
      parts := ForClauses(None, None, None, Stmt.Expression(Literal(NilLit)));
      var open := Consume(LEFT_PAREN, "Expect '(' after 'for'.");
      if open.Err? {
        return Err(open.error), parts;
      }
      var initializer := ForInitializer();
      if initializer.Err? {
        return Err(initializer.error), parts;
      }
      var condition := ClauseExpression(SEMICOLON);
      if condition.Err? {
        return Err(condition.error), parts;
      }
      var semi := Consume(SEMICOLON, "Expect ';' after loop condition.");
      if semi.Err? {
        return Err(semi.error), parts;
      }
      var increment := ClauseExpression(RIGHT_PAREN);
      if increment.Err? {
        return Err(increment.error), parts;
      }
      var close := Consume(RIGHT_PAREN, "Expect ')' after for clauses.");
      if close.Err? {
        return Err(close.error), parts;
      }
      var body := Statement();
      if body.Err? {
        return Err(body.error), parts;
      }
      parts := ForClauses(initializer.value, condition.value, increment.value, body.value);
      DesugarForShaped(parts);
      return Ok(DesugarFor(parts)), parts;
    }

    /** The initializer clause of a for loop: empty after `;`, a variable
        declaration after `var`, otherwise an expression statement. */
    method ForInitializer() returns (r: Result<Option<Stmt>, string>)
      requires Valid()
      modifies this
      ensures Valid() && Parsed(r, current) == ForInitAt(tokens, old(current))
      decreases |tokens| - current, 12
    {
      var m := Match({SEMICOLON});
      if m {
        return Ok(None);
      }
      m := Match({VAR});
      var init;
      if m {
        init := VarDeclaration();
      } else {
        init := ExpressionStatement();
      }
      if init.Err? {
        return Err(init.error);
      }
      return Ok(Some(init.value));
    }

    /** The condition or increment clause of a for loop: absent when the
        token that ends the clause comes next, otherwise an expression. */
    method ClauseExpression(terminator: TokenType) returns (r: Result<Option<Expr>, string>)
      requires Valid()
      modifies this
      ensures Valid() && Parsed(r, current) == ClauseAt(tokens, terminator, old(current))
      decreases |tokens| - current, 12
    {
      if Check(terminator) {
        return Ok(None);
      }
      var c := Expression();
      if c.Err? {
        return Err(c.error);
      }
      return Ok(Some(c.value));
    }

    method ExpressionStatement() returns (r: Result<Stmt, string>)
      requires Valid()
      modifies this
      ensures Valid() && Parsed(r, current) == ExpressionStatementAt(tokens, old(current))
      decreases |tokens| - current, 12
    {
      var e := Expression();
      if e.Err? {
        return Err(e.error);
      }
      var semi := Consume(SEMICOLON, "Expect ';' after expression.");
      if semi.Err? {
        return Err(semi.error);
      }
      return Ok(Stmt.Expression(e.value));
    }

    method Expression() returns (r: Result<Expr, string>)
      requires Valid()
      modifies this
      ensures Valid() && Parsed(r, current) == ExpressionAt(tokens, old(current))
      decreases |tokens| - current, 11
    {
      r := Assignment();
    }

    /** assignment: right associative; only a variable may be assigned. */
    method Assignment() returns (r: Result<Expr, string>)
      requires Valid()
      modifies this
      ensures Valid() && Parsed(r, current) == AssignmentAt(tokens, old(current))
      decreases |tokens| - current, 10
    {
      ghost var start := current;
      var expr := Or();
      if expr.Err? {
        return expr;
      }
      ghost var at := current;
      var eq := Match({EQUAL});
      if !eq {
        AssignmentPlain(tokens, start, Parsed(expr, at));
      }
      if eq {
        var equals := Previous();
        ghost var next := current;
        var value := Assignment();
        AssignmentOf(tokens, start, Parsed(expr, at), next, Parsed(value, current));
        if value.Err? {
          return value;
        }
        if expr.value.Variable? {
          return Ok(Assign(expr.value.name, expr.value.id, value.value));
        }
        return Err(ErrorAt(equals, "Invalid assignment target."));
      }
      return expr;
    }

    method Or() returns (r: Result<Expr, string>)
      requires Valid()
      modifies this
      ensures Valid() && Parsed(r, current) == LevelAt(1, tokens, old(current))
      decreases |tokens| - current, 9
    {
      var first := And();
      if first.Err? {
        return first;
      }
      var expr := first.value;
      while true
        invariant Valid() && current > old(current) && Shaped(expr) && Level(expr) >= 1
        invariant LevelRest(1, tokens, expr, current) == LevelAt(1, tokens, old(current))
        decreases |tokens| - current
      {
        ghost var at := current;
        var more := Match({OR});
        if !more {
          LevelRestEnd(1, tokens, expr, at);
          break;
        }
        var op := Previous();
        assert op == tokens[at] && MatchAt(tokens, at, LevelOps(1));
        ghost var next := current;
        var right := And();
        LevelRestStep(1, tokens, expr, at, next, Parsed(right, current));
        if right.Err? {
          return right;
        }
        assert LevelNode(1, expr, op, right.value) == Logical(expr, op, right.value);
        expr := Logical(expr, op, right.value);
      }
      return Ok(expr);
    }

    method And() returns (r: Result<Expr, string>)
      requires Valid()
      modifies this
      ensures Valid() && Parsed(r, current) == LevelAt(2, tokens, old(current))
      decreases |tokens| - current, 8
    {
      var first := Equality();
      if first.Err? {
        return first;
      }
      var expr := first.value;
      while true
        invariant Valid() && current > old(current) && Shaped(expr) && Level(expr) >= 2
        invariant LevelRest(2, tokens, expr, current) == LevelAt(2, tokens, old(current))
        decreases |tokens| - current
      {
        ghost var at := current;
        var more := Match({AND});
        if !more {
          LevelRestEnd(2, tokens, expr, at);
          break;
        }
        var op := Previous();
        assert op == tokens[at] && MatchAt(tokens, at, LevelOps(2));
        ghost var next := current;
        var right := Equality();
        LevelRestStep(2, tokens, expr, at, next, Parsed(right, current));
        if right.Err? {
          return right;
        }
        assert LevelNode(2, expr, op, right.value) == Logical(expr, op, right.value);
        expr := Logical(expr, op, right.value);
      }
      return Ok(expr);
    }

    method Equality() returns (r: Result<Expr, string>)
      requires Valid()
      modifies this
      ensures Valid() && Parsed(r, current) == LevelAt(3, tokens, old(current))
      decreases |tokens| - current, 7
    {
      var first := Comparison();
      if first.Err? {
        return first;
      }
      var expr := first.value;
      while true
        invariant Valid() && current > old(current) && Shaped(expr) && Level(expr) >= 3
        invariant LevelRest(3, tokens, expr, current) == LevelAt(3, tokens, old(current))
        decreases |tokens| - current
      {
        ghost var at := current;
        var more := Match(OpsAt(3));
        if !more {
          LevelRestEnd(3, tokens, expr, at);
          break;
        }
        var op := Previous();
        assert op == tokens[at] && MatchAt(tokens, at, LevelOps(3));
        ghost var next := current;
        var right := Comparison();
        LevelRestStep(3, tokens, expr, at, next, Parsed(right, current));
        if right.Err? {
          return right;
        }
        assert LevelNode(3, expr, op, right.value) == Binary(expr, op, right.value);
        expr := Binary(expr, op, right.value);
      }
      return Ok(expr);
    }

    method Comparison() returns (r: Result<Expr, string>)
      requires Valid()
      modifies this
      ensures Valid() && Parsed(r, current) == LevelAt(4, tokens, old(current))
      decreases |tokens| - current, 6
    {
      var first := Term();
      if first.Err? {
        return first;
      }
      var expr := first.value;
      while true
        invariant Valid() && current > old(current) && Shaped(expr) && Level(expr) >= 4
        invariant LevelRest(4, tokens, expr, current) == LevelAt(4, tokens, old(current))
        decreases |tokens| - current
      {
        ghost var at := current;
        var more := Match(OpsAt(4));
        if !more {
          LevelRestEnd(4, tokens, expr, at);
          break;
        }
        var op := Previous();
        assert op == tokens[at] && MatchAt(tokens, at, LevelOps(4));
        ghost var next := current;
        var right := Term();
        LevelRestStep(4, tokens, expr, at, next, Parsed(right, current));
        if right.Err? {
          return right;
        }
        assert LevelNode(4, expr, op, right.value) == Binary(expr, op, right.value);
        expr := Binary(expr, op, right.value);
      }
      return Ok(expr);
    }

    method Term() returns (r: Result<Expr, string>)
      requires Valid()
      modifies this
      ensures Valid() && Parsed(r, current) == LevelAt(5, tokens, old(current))
      decreases |tokens| - current, 5
    {
      var first := Factor();
      if first.Err? {
        return first;
      }
      var expr := first.value;
      while true
        invariant Valid() && current > old(current) && Shaped(expr) && Level(expr) >= 5
        invariant LevelRest(5, tokens, expr, current) == LevelAt(5, tokens, old(current))
        decreases |tokens| - current
      {
        ghost var at := current;
        var more := Match(OpsAt(5));
        if !more {
          LevelRestEnd(5, tokens, expr, at);
          break;
        }
        var op := Previous();
        assert op == tokens[at] && MatchAt(tokens, at, LevelOps(5));
        ghost var next := current;
        var right := Factor();
        LevelRestStep(5, tokens, expr, at, next, Parsed(right, current));
        if right.Err? {
          return right;
        }
        assert LevelNode(5, expr, op, right.value) == Binary(expr, op, right.value);
        expr := Binary(expr, op, right.value);
      }
      return Ok(expr);
    }

    method Factor() returns (r: Result<Expr, string>)
      requires Valid()
      modifies this
      ensures Valid() && Parsed(r, current) == LevelAt(6, tokens, old(current))
      decreases |tokens| - current, 4
    {
      var first := Unary();
      if first.Err? {
        return first;
      }
      var expr := first.value;
      while true
        invariant Valid() && current > old(current) && Shaped(expr) && Level(expr) >= 6
        invariant LevelRest(6, tokens, expr, current) == LevelAt(6, tokens, old(current))
        decreases |tokens| - current
      {
        ghost var at := current;
        var more := Match(OpsAt(6));
        if !more {
          LevelRestEnd(6, tokens, expr, at);
          break;
        }
        var op := Previous();
        assert op == tokens[at] && MatchAt(tokens, at, LevelOps(6));
        ghost var next := current;
        var right := Unary();
        LevelRestStep(6, tokens, expr, at, next, Parsed(right, current));
        if right.Err? {
          return right;
        }
        assert LevelNode(6, expr, op, right.value) == Binary(expr, op, right.value);
        expr := Binary(expr, op, right.value);
      }
      return Ok(expr);
    }

    method Unary() returns (r: Result<Expr, string>)
      requires Valid()
      modifies this
      ensures Valid() && Parsed(r, current) == UnaryAt(tokens, old(current))
      decreases |tokens| - current, 3
    {
      var m := Match({BANG, MINUS});
      if m {
        var op := Previous();
        var right := Unary();
        if right.Err? {
          return right;
        }
        return Ok(Expr.Unary(op, right.value));
      }
      r := Call();
    }

    /** call: a primary followed by any number of argument lists and
        indexes, applied left to right. */
    method Call() returns (r: Result<Expr, string>)
      requires Valid()
      modifies this
      ensures Valid() && Parsed(r, current) == CallAt(tokens, old(current))
      decreases |tokens| - current, 2
    {
      var first := Primary();
      if first.Err? {
        return first;
      }
      var expr := first.value;
      while true
        invariant Valid() && current > old(current) && Shaped(expr) && Level(expr) >= 8
        invariant CallRest(tokens, expr, current) == CallAt(tokens, old(current))
        decreases |tokens| - current
      {
        ghost var at := current;
        var paren := Match({LEFT_PAREN});
        if paren {
          ghost var next := current;
          var c := FinishCall(expr);
          CallRestParen(tokens, expr, at, next, Parsed(c, current));
          if c.Err? {
            return c;
          }
          expr := c.value;
        } else {
          var bracket := Match({LEFT_BRACKET});
          if !bracket {
            CallRestEnd(tokens, expr, at);
            break;
          }
          ghost var next := current;
          var g := FinishIndex(expr);
          CallRestBracket(tokens, expr, at, next, Parsed(g, current));
          if g.Err? {
            return g;
          }
          expr := g.value;
        }
      }
      return Ok(expr);
    }

    /** The rest of an index suffix after `[`: the index expression and the
        closing bracket. */
    method FinishIndex(target: Expr) returns (r: Result<Expr, string>)
      requires Valid() && Shaped(target) && Level(target) >= 8
      modifies this
      ensures Valid() && Parsed(r, current) == IndexAt(tokens, target, old(current))
      decreases |tokens| - current + 1, 0
    {
      var index := Expression();
      if index.Err? {
        return index;
      }
      var close := Consume(RIGHT_BRACKET, "Expect ']' after index.");
      if close.Err? {
        return Err(close.error);
      }
      return Ok(Get(target, index.value));
    }

    method FinishCall(callee: Expr) returns (r: Result<Expr, string>)
      requires Valid() && Shaped(callee) && Level(callee) >= 8
      modifies this
      ensures Valid() && Parsed(r, current) == FinishCallAt(tokens, callee, old(current))
      decreases |tokens| - current + 1, 1
    {
      var arguments: seq<Expr> := [];
      if Check(RIGHT_PAREN) {
        r := EndCall(callee, arguments);
        return;
      }
      while true
        invariant Valid() && current >= old(current) && |arguments| <= 255
        invariant forall i :: 0 <= i < |arguments| ==> Shaped(arguments[i])
        invariant ArgumentsAt(tokens, callee, arguments, current) == FinishCallAt(tokens, callee, old(current))
        decreases |tokens| - current
      {
        if |arguments| >= 255 {
          return Err(ErrorAt(Peek(), "Cannot have more than 255 arguments."));
        }
        var a, comma := Argument(callee, arguments);
        if a.Err? {
          return a;
        }
        arguments := arguments + [a.value];
        if !comma {
          break;
        }
      }
      r := EndCall(callee, arguments);
    }

    /** One turn of the argument loop: an argument, then whether a comma
        follows it. */
    method Argument(callee: Expr, arguments: seq<Expr>) returns (a: Result<Expr, string>, comma: bool)
      requires Valid() && Shaped(callee) && Level(callee) >= 8
      requires |arguments| < 255 && forall i :: 0 <= i < |arguments| ==> Shaped(arguments[i])
      modifies this
      ensures Valid() && current >= old(current)
      ensures a.Err? ==> Parsed(a, current) == ArgumentsAt(tokens, callee, arguments, old(current))
      ensures a.Ok? ==> current > old(current) && Shaped(a.value)
      ensures a.Ok? && comma ==>
        ArgumentsAt(tokens, callee, arguments + [a.value], current) == ArgumentsAt(tokens, callee, arguments, old(current))
      ensures a.Ok? && !comma ==>
        CloseCall(tokens, callee, arguments + [a.value], current) == ArgumentsAt(tokens, callee, arguments, old(current))
      decreases |tokens| - current + 1, 0
    {
      ghost var at := current;
      a := Expression();
      ghost var pa := Parsed(a, current);
      if a.Err? {
        ArgumentsStep(tokens, callee, arguments, at, pa, []);
        return a, false;
      }
      ghost var more := arguments + [a.value];
      ArgumentsStep(tokens, callee, arguments, at, pa, more);
      comma := Match({COMMA});
      assert comma == MatchAt(tokens, pa.pos, {COMMA});
      assert current == if comma then pa.pos + 1 else pa.pos;
    }

    /** The closing `)` of a call whose arguments have been read. */
    method EndCall(callee: Expr, arguments: seq<Expr>) returns (r: Result<Expr, string>)
      requires Valid() && Shaped(callee) && Level(callee) >= 8
      requires |arguments| <= 255 && forall i :: 0 <= i < |arguments| ==> Shaped(arguments[i])
      modifies this
      ensures Valid() && Parsed(r, current) == CloseCall(tokens, callee, arguments, old(current))
    {
      var paren := Consume(RIGHT_PAREN, "Expect ')' after arguments.");
      if paren.Err? {
        return Err(paren.error);
      }
      return Ok(Expr.Call(callee, paren.value, arguments));
    }

    /** The rest of a list literal after `[`: comma-separated elements and
        the closing bracket. */
    method FinishList() returns (r: Result<Expr, string>)
      requires Valid()
      modifies this
      ensures Valid() && Parsed(r, current) == ListAt(tokens, old(current))
      decreases |tokens| - current + 1, 0
    {
      var elements: seq<Expr> := [];
      if !Check(RIGHT_BRACKET) {
        while true
          invariant Valid() && current >= old(current)
          invariant forall i :: 0 <= i < |elements| ==> Shaped(elements[i])
          invariant ElementsAt(tokens, elements, current) == ListAt(tokens, old(current))
          decreases |tokens| - current
        {
          var e := Expression();
          if e.Err? {
            return e;
          }
          elements := elements + [e.value];
          var comma := Match({COMMA});
          if !comma {
            assert CloseList(tokens, elements, current) == ListAt(tokens, old(current));
            break;
          }
        }
      }
      var close := Consume(RIGHT_BRACKET, "Expect ']' after list elements.");
      if close.Err? {
        return Err(close.error);
      }
      return Ok(ListExpr(elements));
    }

    method Primary() returns (r: Result<Expr, string>)
      requires Valid()
      modifies this
      ensures Valid() && Parsed(r, current) == PrimaryAt(tokens, old(current))
      decreases |tokens| - current, 1
    {
      var m := Match({FALSE});
      if m {
        return Ok(Literal(BoolLit(false)));
      }
      m := Match({TRUE});
      if m {
        return Ok(Literal(BoolLit(true)));
      }
      m := Match({NIL});
      if m {
        return Ok(Literal(NilLit));
      }
      m := Match({NUMBER, STRING});
      if m {
        return Ok(Literal(LiteralOf(Previous().literal)));
      }
      m := Match({LEFT_BRACKET});
      if m {
        r := FinishList();
        return;
      }
      m := Match({IDENTIFIER});
      if m {
        return Ok(Variable(Previous(), current - 1));
      }
      m := Match({LEFT_PAREN});
      if m {
        var e := Expression();
        if e.Err? {
          return e;
        }
        var close := Consume(RIGHT_PAREN, "Expect ')' after expression.");
        if close.Err? {
          return Err(close.error);
        }
        return Ok(Grouping(e.value));
      }
      return Err(ErrorAt(Peek(), "Expect expression."));
    }

    // Cursor operations

    /** match: consumes the current token if its type is one of `kinds`. */
    method Match(kinds: set<TokenType>) returns (b: bool)
      requires Valid()
      modifies this
      ensures Valid()
      ensures b == MatchAt(tokens, old(current), kinds)
      ensures b ==> current == old(current) + 1
      ensures !b ==> current == old(current)
      ensures b ==> Previous() == old(tokens[current]) && Previous().kind in kinds
    {
      if !IsAtEnd() && Peek().kind in kinds {
        var _ := Advance();
        return true;
      }
      return false;
    }

    /** check: false at EOF, whatever `kind` is. */
    predicate Check(kind: TokenType)
      reads this
      requires Valid()
    {
      !IsAtEnd() && Peek().kind == kind
    }

    /** advance: moves one token on, never past EOF, and returns the token
        before the cursor. */
    method Advance() returns (t: Token)
      requires Valid()
      modifies this
      ensures Valid() && current == AdvancedFrom(tokens, old(current))
      ensures t == Previous()
    {
      if !IsAtEnd() {
        current := current + 1;
      }
      return Previous();
    }

    predicate IsAtEnd()
      reads this
      requires Valid()
    {
      Peek().kind == EOF
    }

    function Peek(): Token
      reads this
      requires Valid()
    {
      tokens[current]
    }

    function Previous(): Token
      reads this
      requires Valid()
    {
      PreviousAt(tokens, current)
    }

    /** consume: the current token if it has type `kind`, else the error
        reported at the current token. */
    method Consume(kind: TokenType, message: string) returns (r: Result<Token, string>)
      requires Valid()
      modifies this
      ensures Valid()
      ensures r.Ok? <==> old(Check(kind))
      ensures r.Ok? ==> r.value == old(Peek()) && r.value.kind == kind && current == old(current) + 1
      ensures r.Err? ==> current == old(current) && r.error == ErrorAt(Peek(), message)
      ensures Parsed(r, current) == ConsumeAt(tokens, old(current), kind, message)
    {
      if Check(kind) {
        var t := Advance();
        return Ok(t);
      }
      return Err(ErrorAt(Peek(), message));
    }

    /** synchronize: advances at least one token (unless at EOF), then skips
        to just after a ';', just before a statement keyword, or to EOF. */
    method Synchronize()
      requires Valid()
      modifies this
      ensures Valid() && current == SyncFrom(tokens, AdvancedFrom(tokens, old(current)))
    {
      var _ := Advance();
      while !IsAtEnd()
        invariant Valid() && AdvancedFrom(tokens, old(current)) <= current
        invariant SyncFrom(tokens, current) == SyncFrom(tokens, AdvancedFrom(tokens, old(current)))
        decreases |tokens| - current
      {
        if Previous().kind == SEMICOLON {
          return;
        }
        if IsStatementStart(Peek().kind) {
          return;
        }
        var _ := Advance();
      }
    }
  }
}
