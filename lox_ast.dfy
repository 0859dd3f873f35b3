/** The syntax tree of the interpreted language (interpreter/ast/ast.py).

    Python keys the resolver's results by the identity of a Variable or
    Assign node; here such a node carries `id`, the position of its name
    token in the token list, which is unique for each node the parser
    creates. A block holds `None` for each declaration that failed to
    parse, as the parser's list does. */
module LoxAst {
  import opened Base
  import opened LoxTokens

  /** The value of a Literal node: nil, a boolean, a number (by its lexeme)
      or a string. */
  datatype LiteralValue = NilLit | BoolLit(b: bool) | NumberLit(lexeme: string) | StringLit(s: string)

  datatype Expr =
    | Binary(left: Expr, op: Token, right: Expr)
    | Grouping(inner: Expr)
    | Literal(literal: LiteralValue)
    | Unary(op: Token, right: Expr)
    | Variable(name: Token, id: nat)
    | Assign(name: Token, id: nat, value: Expr)
    | Logical(left: Expr, op: Token, right: Expr)
    | Call(callee: Expr, paren: Token, arguments: seq<Expr>)
    | ListExpr(elements: seq<Expr>)
    | Get(obj: Expr, index: Expr)

  datatype Stmt =
    | Expression(expr: Expr)
    | Print(expr: Expr)
    | Var(name: Token, initializer: Option<Expr>)
    | Block(statements: seq<Option<Stmt>>)
    | If(condition: Expr, thenBranch: Stmt, elseBranch: Option<Stmt>)
    | While(condition: Expr, body: Stmt)
    | Function(name: Token, params: seq<Token>, fnBody: seq<Option<Stmt>>)
    | Return(keyword: Token, result: Option<Expr>)

  /** Sizes, for the termination of the tree walks. */
  function ExprSize(e: Expr): nat
  {
    match e
    case Binary(l, _, r) => 1 + ExprSize(l) + ExprSize(r)
    case Grouping(x) => 1 + ExprSize(x)
    case Literal(_) => 1
    case Unary(_, r) => 1 + ExprSize(r)
    case Variable(_, _) => 1
    case Assign(_, _, v) => 1 + ExprSize(v)
    case Logical(l, _, r) => 1 + ExprSize(l) + ExprSize(r)
    case Call(c, _, args) => 1 + ExprSize(c) + ExprsSize(args)
    case ListExpr(es) => 1 + ExprsSize(es)
    case Get(o, i) => 1 + ExprSize(o) + ExprSize(i)
  }

  function ExprsSize(es: seq<Expr>): nat
  {
    if |es| == 0 then 0 else ExprSize(es[0]) + ExprsSize(es[1..])
  }

  function StmtSize(s: Stmt): nat
  {
    match s
    case Expression(e) => 1 + ExprSize(e)
    case Print(e) => 1 + ExprSize(e)
    case Var(_, init) => 1 + (match init case None => 0 case Some(x) => ExprSize(x))
    case Block(ss) => 1 + StmtsSize(ss)
    case If(c, t, el) => 1 + ExprSize(c) + StmtSize(t) + (match el case None => 0 case Some(x) => StmtSize(x))
    case While(c, b) => 1 + ExprSize(c) + StmtSize(b)
    case Function(_, _, body) => 1 + StmtsSize(body)
    case Return(_, v) => 1 + (match v case None => 0 case Some(x) => ExprSize(x))
  }

  function StmtsSize(ss: seq<Option<Stmt>>): nat
  {
    if |ss| == 0 then 0
    else OptStmtSize(ss[0]) + StmtsSize(ss[1..])
  }

  function OptStmtSize(o: Option<Stmt>): nat
  {
    match o
    case None => 0
    case Some(s) => StmtSize(s)
  }

  lemma {:induction false} ExprsSizeElement(es: seq<Expr>, i: nat)
    requires i < |es|
    ensures ExprSize(es[i]) <= ExprsSize(es)
    decreases |es|
  {
    if i > 0 {
      ExprsSizeElement(es[1..], i - 1);
    }
  }

  lemma {:induction false} StmtsSizeElement(ss: seq<Option<Stmt>>, i: nat)
    requires i < |ss|
    ensures OptStmtSize(ss[i]) <= StmtsSize(ss)
    decreases |ss|
  {
    if i > 0 {
      StmtsSizeElement(ss[1..], i - 1);
    }
  }

  lemma {:induction false} ExprsSizeSplit(es: seq<Expr>, i: nat)
    requires i <= |es|
    ensures ExprsSize(es) == ExprsSize(es[..i]) + ExprsSize(es[i..])
    decreases |es|
  {
    if i > 0 {
      ExprsSizeSplit(es[1..], i - 1);
      assert es[1..][..i - 1] == es[..i][1..];
      assert es[1..][i - 1..] == es[i..];
    } else {
      assert es[..0] == [];
      assert es[0..] == es;
    }
  }

  lemma {:induction false} StmtsSizeSplit(ss: seq<Option<Stmt>>, i: nat)
    requires i <= |ss|
    ensures StmtsSize(ss) == StmtsSize(ss[..i]) + StmtsSize(ss[i..])
    decreases |ss|
  {
    if i > 0 {
      StmtsSizeSplit(ss[1..], i - 1);
      assert ss[1..][..i - 1] == ss[..i][1..];
      assert ss[1..][i - 1..] == ss[i..];
    } else {
      assert ss[..0] == [];
      assert ss[0..] == ss;
    }
  }
}
