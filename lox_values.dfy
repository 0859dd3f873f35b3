/** Runtime values of the interpreter and the helpers that inspect them
    (is_truthy, is_equal and stringify in interpreter/interpreter/interpreter.py,
    arity in interpreter/interpreter/callable.py).

    Python represents nil as None, booleans and numbers as bool and float,
    lists as Python lists and functions as FunctionObj or Clock objects.
    Numbers are exact reals here; a bool is also a number, as
    `isinstance(True, (int, float))` holds in Python. Two FunctionObj
    values are equal only when they are the same object; `id` stands for
    that identity. */
module LoxValues {
  import opened Base
  import opened LoxTokens
  import opened LoxAst

  /** The declaration a FunctionObj holds. */
  datatype FnDecl = FnDecl(name: Token, params: seq<Token>, body: seq<Option<Stmt>>)

  datatype Value =
    | Nil
    | Bool(b: bool)
    | Num(x: real)
    | Str(s: string)
    | List(items: seq<Value>)
    | Fn(id: nat, decl: FnDecl, closure: nat, isInitializer: bool)
    | Clock

  /** What the model takes from the Python runtime: `str()` of a float,
      `str()` of a list (which shows elements by `repr`), and the time
      `time.time()` returns. */
  datatype Host = Host(floatStr: real -> string, listStr: seq<Value> -> string, now: real)

  /** `isinstance(v, (int, float))`, which a bool satisfies. */
  predicate IsNumber(v: Value)
  {
    v.Bool? || v.Num?
  }

  /** `float(v)` of a number; True is 1 and False is 0. */
  function NumberOf(v: Value): real
    requires IsNumber(v)
  {
    if v.Bool? then (if v.b then 1.0 else 0.0) else v.x
  }

  /** is_truthy: nil, false, zero and the empty string are false; every
      other value is true. */
  function IsTruthy(v: Value): (r: bool)
    ensures !r <==> v == Nil || v == Bool(false) || v == Num(0.0) || v == Str("")
  {
    match v
    case Nil => false
    case Bool(b) => b
    case Num(x) => x != 0.0
    case Str(s) => |s| > 0
    case _ => true
  }

  /** Python's `==` on these values: numbers (bools included) by value,
      strings and lists by contents, functions by identity. */
  function PyEq(a: Value, b: Value): bool
  {
    if IsNumber(a) && IsNumber(b) then NumberOf(a) == NumberOf(b)
    else match (a, b)
      case (Nil, Nil) => true
      case (Str(s), Str(t)) => s == t
      case (List(xs), List(ys)) => |xs| == |ys| && forall i :: 0 <= i < |xs| ==> PyEq(xs[i], ys[i])
      case (Fn(i, _, _, _), Fn(j, _, _, _)) => i == j
      case (Clock, Clock) => true
      case _ => false
  }

  /** is_equal: None equals only None; otherwise Python equality. */
  function IsEqual(a: Value, b: Value): (r: bool)
    ensures a == Nil ==> (r <==> b == Nil)
    ensures b == Nil ==> (r <==> a == Nil)
  {
    if a == Nil && b == Nil then true
    else if a == Nil then false
    else PyEq(a, b)
  }

  /** Every value equals itself. */
  lemma {:induction false} PyEqReflexive(v: Value)
    ensures PyEq(v, v)
  {
    if v.List? {
      forall i | 0 <= i < |v.items|
        ensures PyEq(v.items[i], v.items[i])
      {
        PyEqReflexive(v.items[i]);
      }
    }
  }

  /** Equality does not depend on the order of its operands. */
  lemma {:induction false} PyEqSymmetric(a: Value, b: Value)
    ensures PyEq(a, b) == PyEq(b, a)
  {
    if a.List? && b.List? && |a.items| == |b.items| {
      forall i | 0 <= i < |a.items|
        ensures PyEq(a.items[i], b.items[i]) == PyEq(b.items[i], a.items[i])
      {
        PyEqSymmetric(a.items[i], b.items[i]);
      }
    }
  }

  lemma {:induction false} IsEqualReflexive(v: Value)
    ensures IsEqual(v, v)
  {
    PyEqReflexive(v);
  }

  lemma {:induction false} IsEqualSymmetric(a: Value, b: Value)
    ensures IsEqual(a, b) == IsEqual(b, a)
  {
    PyEqSymmetric(a, b);
  }

  /** A bool equals the number it stands for: `true == 1` holds and
      `true == "true"` does not. */
  lemma {:induction false} IsEqualBoolAsNumber()
    ensures IsEqual(Bool(true), Num(1.0)) && IsEqual(Num(0.0), Bool(false))
    ensures !IsEqual(Bool(true), Str("true"))
  {
  }

  /** The text of a number with one trailing ".0" removed. */
  function DropPointZero(t: string): (r: string)
    ensures EndsWith(t, ".0") ==> r + ".0" == t
    ensures !EndsWith(t, ".0") ==> r == t
  {
    if EndsWith(t, ".0") then t[..|t| - 2] else t
  }

  /** The text `str()` gives for a callable. */
  function CallableText(v: Value): string
    requires v.Fn? || v.Clock?
  {
    if v.Fn? then "<fn " + v.decl.name.lexeme + ">" else "<native fn: clock>"
  }

  /** stringify: what `print` shows. */
  function Stringify(v: Value, host: Host): (r: string)
    ensures v == Nil ==> r == "nil"
    ensures v.Bool? ==> r == (if v.b then "true" else "false")
    ensures v.Str? ==> r == v.s
    ensures v.List? ==> |r| >= 2 && r[0] == '[' && r[|r| - 1] == ']'
  {
    match v
    case Nil => "nil"
    case Bool(b) => if b then "true" else "false"
    case Num(x) => DropPointZero(host.floatStr(x))
    case List(items) => "[" + Join(StringifyAll(items, host), ", ") + "]"
    case Str(s) => s
    case Fn(_, _, _, _) => CallableText(v)
    case Clock => CallableText(v)
  }

  function StringifyAll(items: seq<Value>, host: Host): (r: seq<string>)
    ensures |r| == |items|
    ensures forall i :: 0 <= i < |items| ==> r[i] == Stringify(items[i], host)
    decreases items, 0
  {
    seq(|items|, i requires 0 <= i < |items| => Stringify(items[i], host))
  }

  /** A list shows its elements' own renderings, separated by ", ". */
  lemma {:induction false} StringifyPair(a: Value, b: Value, host: Host)
    ensures Stringify(List([a, b]), host) == "[" + Stringify(a, host) + ", " + Stringify(b, host) + "]"
  {
    var parts := StringifyAll([a, b], host);
    assert parts[1..] == [Stringify(b, host)];
  }

  lemma {:induction false} StringifyEmptyList(host: Host)
    ensures Stringify(List([]), host) == "[]"
  {
    assert StringifyAll([], host) == [];
  }

  /** A whole number prints without its ".0". */
  lemma {:induction false} StringifyWholeNumber(x: real, t: string, host: Host)
    requires host.floatStr(x) == t + ".0"
    ensures Stringify(Num(x), host) == t
  {
    assert EndsWith(t + ".0", ".0");
  }

  /** `str()` of a value, as the `+` operator uses it for a string
      operand: None, True and False keep Python's capitalisation. */
  function PyStr(v: Value, host: Host): string
  {
    match v
    case Nil => "None"
    case Bool(b) => if b then "True" else "False"
    case Num(x) => host.floatStr(x)
    case Str(s) => s
    case List(items) => host.listStr(items)
    case Fn(_, _, _, _) => CallableText(v)
    case Clock => CallableText(v)
  }

  /** `isinstance(v, Callable)`. */
  predicate IsCallable(v: Value)
  {
    v.Fn? || v.Clock?
  }

  /** arity: the number of declared parameters; the clock takes none. */
  function Arity(v: Value): (n: nat)
    requires IsCallable(v)
    ensures v.Clock? ==> n == 0
    ensures v.Fn? ==> n == |v.decl.params|
  {
    if v.Clock? then 0 else |v.decl.params|
  }

  // ---------------------------------------------------------------------
  // Number literals
  // ---------------------------------------------------------------------

  function DigitValue(c: char): nat
  {
    if IsDigit(c) then (c as int - '0' as int) else 0
  }

  /** The value of a string of decimal digits. */
  function DigitsValue(s: string): nat
  {
    if |s| == 0 then 0 else 10 * DigitsValue(s[..|s| - 1]) + DigitValue(s[|s| - 1])
  }

  function Pow10(n: nat): (r: nat)
    ensures r >= 1
  {
    if n == 0 then 1 else 10 * Pow10(n - 1)
  }

  /** `float(lexeme)` for the lexemes the lexer produces (digits,
      optionally a '.' and more digits), exactly rather than rounded. */
  function DecimalValue(lexeme: string): real
  {
    match Find(lexeme, ".")
    case None => DigitsValue(lexeme) as real
    case Some(k) =>
      DigitsValue(lexeme[..k]) as real + DigitsValue(lexeme[k + 1..]) as real / Pow10(|lexeme| - k - 1) as real
  }

  lemma {:induction false} DecimalExample()
    ensures DecimalValue("12.5") == 12.5 && DecimalValue("7") == 7.0
  {
    assert OccursAt("12.5", ".", 2);
    assert !OccursAt("12.5", ".", 0) && !OccursAt("12.5", ".", 1);
    assert "12.5"[..2] == "12" && "12.5"[3..] == "5";
    assert "12"[..1] == "1";
    assert forall j :: 0 <= j ==> !OccursAt("7", ".", j);
    assert "7"[..0] == "";
  }
}
