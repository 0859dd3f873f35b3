/** The scanner of the interpreter (interpreter/lexer/lexer.py).

    The scanner is a class over a cursor: `start` and `current` index the
    source, `line` counts the newlines passed, and `tokens` grows as lexemes
    are recognised. `Step` states what one call of scan_token does to that
    state, `ScanFrom` what the whole loop of scan_tokens returns; the methods
    of `Lexer` are proved against them and the lemmas below state what every
    token list the scanner produces looks like. */
module LoxLexer {
  import opened Base
  import opened LoxTokens

  // ---------------------------------------------------------------------
  // Specification of the scanner
  // ---------------------------------------------------------------------

  /** The number of newline characters in `s`. */
  function Newlines(s: string): nat
  {
    if |s| == 0 then 0
    else Newlines(s[..|s| - 1]) + (if s[|s| - 1] == '\n' then 1 else 0)
  }

  /** The end of the run of identifier characters starting at `j`. */
  function IdentEnd(src: string, j: nat): (k: nat)
    requires j <= |src|
    ensures j <= k <= |src|
    ensures forall i :: j <= i < k ==> IsAlphaNumeric(src[i])
    ensures k < |src| ==> !IsAlphaNumeric(src[k])
    decreases |src| - j
  {
    if j < |src| && IsAlphaNumeric(src[j]) then IdentEnd(src, j + 1) else j
  }

  /** The end of the run of digits starting at `j`. */
  function DigitsEnd(src: string, j: nat): (k: nat)
    requires j <= |src|
    ensures j <= k <= |src|
    ensures forall i :: j <= i < k ==> IsDigit(src[i])
    ensures k < |src| ==> !IsDigit(src[k])
    decreases |src| - j
  {
    if j < |src| && IsDigit(src[j]) then DigitsEnd(src, j + 1) else j
  }

  /** The end of a number whose first digit has been consumed: the integer
      digits, then a '.' and the fraction digits only if a digit follows the
      '.'. */
  function NumberEnd(src: string, j: nat): (k: nat)
    requires j <= |src|
    ensures j <= k <= |src|
  {
    var d := DigitsEnd(src, j);
    if d + 1 < |src| && src[d] == '.' && IsDigit(src[d + 1]) then DigitsEnd(src, d + 1) else d
  }

  /** The position of the first '"' at or after `j`, or the end of the source. */
  function QuoteEnd(src: string, j: nat): (k: nat)
    requires j <= |src|
    ensures j <= k <= |src|
    ensures forall i :: j <= i < k ==> src[i] != '"'
    ensures k < |src| ==> src[k] == '"'
    decreases |src| - j
  {
    if j < |src| && src[j] != '"' then QuoteEnd(src, j + 1) else j
  }

  /** The position of the first newline at or after `j`, or the end of the
      source: where a `//` comment stops. */
  function LineEnd(src: string, j: nat): (k: nat)
    requires j <= |src|
    ensures j <= k <= |src|
    ensures forall i :: j <= i < k ==> src[i] != '\n'
    ensures k < |src| ==> src[k] == '\n'
    decreases |src| - j
  {
    if j < |src| && src[j] != '\n' then LineEnd(src, j + 1) else j
  }

  /** The character an escape `\x` stands for, for the four escapes the
      scanner knows. */
  function EscapeChar(c: char): Option<char>
  {
    if c == 'n' then Some('\n')
    else if c == 't' then Some('\t')
    else if c == '"' then Some('"')
    else if c == '\\' then Some('\\')
    else None
  }

  /** The value of a string literal: the four escapes are translated, a
      backslash before any other character (or at the very end) is kept. */
  function Unescape(v: string): string
  {
    if |v| == 0 then ""
    else if v[0] == '\\' && |v| >= 2 && EscapeChar(v[1]).Some? then [EscapeChar(v[1]).value] + Unescape(v[2..])
    else [v[0]] + Unescape(v[1..])
  }

  /** What one call of scan_token does: the token it adds (if any), where the
      cursor ends and what the line counter becomes; or the error it raises. */
  datatype Scanned = Scanned(token: Option<Token>, next: nat, line: nat)

  function Step(src: string, pos: nat, line: nat): (r: Result<Scanned, string>)
    requires pos < |src|
    ensures r.Ok? ==> pos < r.value.next <= |src|
  {
    var c := src[pos];
    if SingleCharType(c).Some? then
      Ok(Scanned(Some(Token(SingleCharType(c).value, [c], NoLiteral, line)), pos + 1, line))
    else if OperatorTypes(c).Some? then Ok(OperatorStep(src, pos, line))
    else if c == '/' then Ok(SlashStep(src, pos, line))
    else if c == ' ' || c == '\r' || c == '\t' then Ok(Scanned(None, pos + 1, line))
    else if c == '\n' then Ok(Scanned(None, pos + 1, line + 1))
    else if c == '"' then StringStep(src, pos, line)
    else if IsDigit(c) then Ok(NumberStep(src, pos, line))
    else if IsAlpha(c) then Ok(IdentifierStep(src, pos, line))
    else Err("Unexpected character: " + [c] + " at line " + NatToString(line))
  }

  /** `!`, `=`, `<` or `>`, followed or not by `=`. */
  function OperatorStep(src: string, pos: nat, line: nat): (s: Scanned)
    requires pos < |src| && OperatorTypes(src[pos]).Some?
    ensures pos < s.next <= |src|
  {
    var types := OperatorTypes(src[pos]).value;
    if pos + 1 < |src| && src[pos + 1] == '=' then
      Scanned(Some(Token(types.1, [src[pos], '='], NoLiteral, line)), pos + 2, line)
    else
      Scanned(Some(Token(types.0, [src[pos]], NoLiteral, line)), pos + 1, line)
  }

  /** `/`: a comment running to the end of the line when another `/` follows. */
  function SlashStep(src: string, pos: nat, line: nat): (s: Scanned)
    requires pos < |src|
    ensures pos < s.next <= |src|
  {
    if pos + 1 < |src| && src[pos + 1] == '/' then Scanned(None, LineEnd(src, pos + 2), line)
    else Scanned(Some(Token(SLASH, "/", NoLiteral, line)), pos + 1, line)
  }

  /** A string literal opened at `pos`. */
  function StringStep(src: string, pos: nat, line: nat): (r: Result<Scanned, string>)
    requires pos < |src|
    ensures r.Ok? ==> pos < r.value.next <= |src|
  {
    var q := QuoteEnd(src, pos + 1);
    var endLine := line + Newlines(src[pos + 1..q]);
    if q == |src| then Err("Unterminated string at line " + NatToString(endLine))
    else Ok(Scanned(Some(Token(STRING, src[pos..q + 1], StrLit(Unescape(src[pos + 1..q])), endLine)), q + 1, endLine))
  }

  function NumberStep(src: string, pos: nat, line: nat): (s: Scanned)
    requires pos < |src|
    ensures pos < s.next <= |src|
  {
    var e := NumberEnd(src, pos + 1);
    Scanned(Some(Token(NUMBER, src[pos..e], NumLit(src[pos..e]), line)), e, line)
  }

  function IdentifierStep(src: string, pos: nat, line: nat): (s: Scanned)
    requires pos < |src|
    ensures pos < s.next <= |src|
  {
    var e := IdentEnd(src, pos + 1);
    Scanned(Some(Token(IdentifierType(src[pos..e]), src[pos..e], NoLiteral, line)), e, line)
  }

  function TokenList(t: Option<Token>): seq<Token>
  {
    if t.Some? then [t.value] else []
  }

  /** The token list scan_tokens returns when started at `pos` on `line`, or
      the first error it raises. */
  function ScanFrom(src: string, pos: nat, line: nat): Result<seq<Token>, string>
    decreases |src| - pos
  {
    if pos >= |src| then Ok([Token(EOF, "", NoLiteral, line)])
    else
      match Step(src, pos, line)
      case Err(e) => Err(e)
      case Ok(s) =>
        match ScanFrom(src, s.next, s.line)
        case Err(e) => Err(e)
        case Ok(rest) => Ok(TokenList(s.token) + rest)
  }

  /** `Lexer(source).scan_tokens()`. */
  function Scan(src: string): Result<seq<Token>, string>
  {
    ScanFrom(src, 0, 1)
  }

  /** A successful scan of a whole source ends with exactly one EOF
      token, on the line after the source's last newline; the lines never
      decrease and every token is well shaped. */
  lemma {:induction false} ScanProgram(src: string)
    requires Scan(src).Ok?
    ensures var ts := Scan(src).value;
      && |ts| >= 1
      && ts[|ts| - 1] == Token(EOF, "", NoLiteral, 1 + Newlines(src))
      && (forall i :: 0 <= i < |ts| - 1 ==> ts[i].kind != EOF)
      && (forall i, j :: 0 <= i < j < |ts| ==> ts[i].line <= ts[j].line)
      && (forall t :: t in ts ==> WellShaped(t))
  {
    assert src[0..] == src;
    ScanEndsWithEof(src, 0, 1);
    ScanLinesOrdered(src, 0, 1);
    ScanWellShaped(src, 0, 1);
  }

  /** The characters scan_token recognises at the start of a lexeme. */
  predicate Recognised(c: char)
  {
    SingleCharType(c).Some? || OperatorTypes(c).Some? || c == '/' || c == ' ' || c == '\r'
    || c == '\t' || c == '\n' || c == '"' || IsDigit(c) || IsAlpha(c)
  }

  /** The shape of a number lexeme: digits, optionally followed by one '.'
      and more digits. */
  predicate NumberShape(l: string)
  {
    && |l| >= 1 && IsDigit(l[0]) && IsDigit(l[|l| - 1])
    && (forall i :: 0 <= i < |l| ==> IsDigit(l[i]) || l[i] == '.')
    && (forall i, j :: 0 <= i < j < |l| && l[i] == '.' ==> l[j] != '.')
  }

  predicate IdentShape(l: string)
  {
    |l| >= 1 && IsAlpha(l[0]) && forall i :: 0 <= i < |l| ==> IsAlphaNumeric(l[i])
  }

  /** An operator lexeme: one character, or one of `!`, `=`, `<`, `>`
      followed by `=`. */
  predicate OperatorShape(kind: TokenType, l: string)
  {
    || (|l| == 1 && SingleCharType(l[0]) == Some(kind))
    || (|l| == 1 && OperatorTypes(l[0]).Some? && OperatorTypes(l[0]).value.0 == kind)
    || (|l| == 2 && l[1] == '=' && OperatorTypes(l[0]).Some? && OperatorTypes(l[0]).value.1 == kind)
  }

  predicate StringShape(l: string)
  {
    && |l| >= 2 && l[0] == '"' && l[|l| - 1] == '"'
    && (forall i :: 1 <= i < |l| - 1 ==> l[i] != '"')
  }

  /** What every token the scanner produces looks like. */
  predicate WellShaped(t: Token)
  {
    if t.kind == EOF then t.lexeme == "" && t.literal == NoLiteral
    else if t.kind == STRING then StringShape(t.lexeme) && t.literal == StrLit(Unescape(t.lexeme[1..|t.lexeme| - 1]))
    else if t.kind == NUMBER then NumberShape(t.lexeme) && t.literal == NumLit(t.lexeme)
    else if t.kind == IDENTIFIER || IsKeyword(t.kind) then
      t.literal == NoLiteral && IdentShape(t.lexeme) && IdentifierType(t.lexeme) == t.kind
    else if t.kind == SLASH then t.literal == NoLiteral && t.lexeme == "/"
    else t.literal == NoLiteral && OperatorShape(t.kind, t.lexeme)
  }

  // ---------------------------------------------------------------------
  // Properties of the specification
  // ---------------------------------------------------------------------

  lemma {:induction false} NewlinesConcat(a: string, b: string)
    ensures Newlines(a + b) == Newlines(a) + Newlines(b)
    decreases |b|
  {
    if |b| == 0 {
      assert a + b == a;
    } else {
      assert (a + b)[..|a + b| - 1] == a + b[..|b| - 1];
      NewlinesConcat(a, b[..|b| - 1]);
    }
  }

  /** One more character of a slice adds its newline, if it is one. */
  lemma {:induction false} NewlinesExtend(src: string, a: nat, b: nat)
    requires a <= b < |src|
    ensures Newlines(src[a..b + 1]) == Newlines(src[a..b]) + (if src[b] == '\n' then 1 else 0)
  {
    assert src[a..b + 1][..b - a] == src[a..b];
  }

  lemma {:induction false} NoNewlines(s: string)
    requires forall i :: 0 <= i < |s| ==> s[i] != '\n'
    ensures Newlines(s) == 0
    decreases |s|
  {
    if |s| > 0 {
      NoNewlines(s[..|s| - 1]);
    }
  }

  /** The line counter after a step has grown by the newlines the step
      passed, and the token of the step carries the new line. */
  lemma {:induction false} StepLine(src: string, pos: nat, line: nat)
    requires pos < |src| && Step(src, pos, line).Ok?
    ensures Step(src, pos, line).value.line == line + Newlines(src[pos..Step(src, pos, line).value.next])
    ensures var s := Step(src, pos, line).value; s.token.Some? ==> s.token.value.line == s.line
  {
    var s := Step(src, pos, line).value;
    var c := src[pos];
    if c == '"' {
      StringLine(src, pos, line);
    } else if c == '\n' {
      assert src[pos..pos + 1] == [c];
      assert [c][..0] == [];
    } else {
      if IsDigit(c) && SingleCharType(c).None? {
        assert Step(src, pos, line) == Ok(NumberStep(src, pos, line));
        NumberNoNewlines(src, pos);
      } else if IsAlpha(c) && SingleCharType(c).None? && OperatorTypes(c).None? && !IsDigit(c) {
        assert Step(src, pos, line) == Ok(IdentifierStep(src, pos, line));
      }
      NoNewlinesBetween(src, pos, s.next);
    }
  }

  lemma {:induction false} NumberNoNewlines(src: string, pos: nat)
    requires pos < |src| && IsDigit(src[pos])
    ensures forall i :: pos <= i < NumberEnd(src, pos + 1) ==> src[i] != '\n'
  {
    var d := DigitsEnd(src, pos + 1);
    assert forall i :: pos <= i < NumberEnd(src, pos + 1) && i != d ==> IsDigit(src[i]);
  }

  lemma {:induction false} NoNewlinesBetween(src: string, a: nat, b: nat)
    requires a <= b <= |src| && forall i :: a <= i < b ==> src[i] != '\n'
    ensures Newlines(src[a..b]) == 0
  {
    assert forall i :: 0 <= i < b - a ==> src[a..b][i] == src[a + i];
    NoNewlines(src[a..b]);
  }

  lemma {:induction false} StringLine(src: string, pos: nat, line: nat)
    requires pos < |src| && src[pos] == '"' && StringStep(src, pos, line).Ok?
    ensures var s := StringStep(src, pos, line).value;
      s.line == line + Newlines(src[pos..s.next]) && s.token.Some? && s.token.value.line == s.line
  {
    var c := src[pos];
    var q := QuoteEnd(src, pos + 1);
    assert src[pos..q + 1] == [c] + src[pos + 1..q] + [src[q]];
    NewlinesConcat([c] + src[pos + 1..q], [src[q]]);
    NewlinesConcat([c], src[pos + 1..q]);
    assert Newlines([c]) == 0 by { assert [c][..0] == []; }
    assert Newlines([src[q]]) == 0 by { assert [src[q]][..0] == []; }
  }

  /** Every scan that succeeds ends with exactly one EOF token, whose line is
      the starting line plus the newlines of the rest of the source. */
  lemma {:induction false} ScanEndsWithEof(src: string, pos: nat, line: nat)
    requires pos <= |src| && ScanFrom(src, pos, line).Ok?
    ensures var ts := ScanFrom(src, pos, line).value;
      && |ts| >= 1
      && ts[|ts| - 1] == Token(EOF, "", NoLiteral, line + Newlines(src[pos..]))
      && (forall i :: 0 <= i < |ts| - 1 ==> ts[i].kind != EOF)
    decreases |src| - pos
  {
    if pos < |src| {
      var s := Step(src, pos, line).value;
      var rest := ScanFrom(src, s.next, s.line).value;
      StepTokenNotEof(src, pos, line);
      ScanEndsWithEof(src, s.next, s.line);
      StepNewlines(src, pos, line);
      assert ScanFrom(src, pos, line).value == TokenList(s.token) + rest;
      EofStaysLast(TokenList(s.token), rest);
    } else {
      assert src[pos..] == [];
    }
  }

  /** The newlines still ahead before and after one step. */
  lemma {:induction false} StepNewlines(src: string, pos: nat, line: nat)
    requires pos < |src| && Step(src, pos, line).Ok?
    ensures var s := Step(src, pos, line).value;
      line + Newlines(src[pos..]) == s.line + Newlines(src[s.next..])
  {
    var s := Step(src, pos, line).value;
    StepLine(src, pos, line);
    assert src[pos..] == src[pos..s.next] + src[s.next..];
    NewlinesConcat(src[pos..s.next], src[s.next..]);
  }

  /** A token that is not EOF in front of a list whose only EOF is its last
      token leaves that token last and alone. */
  lemma {:induction false} EofStaysLast(head: seq<Token>, rest: seq<Token>)
    requires forall i :: 0 <= i < |head| ==> head[i].kind != EOF
    requires |rest| >= 1 && forall i :: 0 <= i < |rest| - 1 ==> rest[i].kind != EOF
    ensures var ts := head + rest;
      && |ts| >= 1 && ts[|ts| - 1] == rest[|rest| - 1]
      && forall i :: 0 <= i < |ts| - 1 ==> ts[i].kind != EOF
  {
    var ts := head + rest;
    forall i | 0 <= i < |ts| - 1
      ensures ts[i].kind != EOF
    {
      if i >= |head| {
        assert ts[i] == rest[i - |head|];
      }
    }
  }

  /** The tokens of a successful scan carry lines that never decrease and
      that lie between the starting line and the line of the EOF token. */
  lemma {:induction false} ScanLinesOrdered(src: string, pos: nat, line: nat)
    requires pos <= |src| && ScanFrom(src, pos, line).Ok?
    ensures var ts := ScanFrom(src, pos, line).value;
      && |ts| >= 1
      && (forall i :: 0 <= i < |ts| ==> line <= ts[i].line <= ts[|ts| - 1].line)
      && (forall i, j :: 0 <= i < j < |ts| ==> ts[i].line <= ts[j].line)
    decreases |src| - pos
  {
    if pos < |src| {
      var s := Step(src, pos, line).value;
      var rest := ScanFrom(src, s.next, s.line).value;
      StepLine(src, pos, line);
      ScanLinesOrdered(src, s.next, s.line);
      var ts := TokenList(s.token) + rest;
      assert ScanFrom(src, pos, line).value == ts;
      if s.token.Some? {
        assert forall i :: 1 <= i < |ts| ==> ts[i] == rest[i - 1];
      }
    }
  }

  lemma {:induction false} StepTokenNotEof(src: string, pos: nat, line: nat)
    requires pos < |src| && Step(src, pos, line).Ok?
    ensures Step(src, pos, line).value.token.Some? ==> Step(src, pos, line).value.token.value.kind != EOF
  {
    var c := src[pos];
    if IsAlpha(c) && SingleCharType(c).None? && OperatorTypes(c).None? && !IsDigit(c) {
      var e := IdentEnd(src, pos + 1);
      var k := KeywordType(src[pos..e]);
      assert k.Some? ==> IsKeyword(k.value);
    }
  }

  /** scan_token raises exactly on a character it does not recognise and on
      a string with no closing quote. */
  lemma {:induction false} StepErrors(src: string, pos: nat, line: nat)
    requires pos < |src|
    ensures Step(src, pos, line).Err? <==>
      (!Recognised(src[pos]) || (src[pos] == '"' && QuoteEnd(src, pos + 1) == |src|))
    ensures !Recognised(src[pos]) ==>
      Step(src, pos, line) == Err("Unexpected character: " + [src[pos]] + " at line " + NatToString(line))
  {
  }

  lemma {:induction false} NumberEndShape(src: string, pos: nat)
    requires pos < |src| && IsDigit(src[pos])
    ensures NumberShape(src[pos..NumberEnd(src, pos + 1)])
  {
    var d := DigitsEnd(src, pos + 1);
    var e := NumberEnd(src, pos + 1);
    var l := src[pos..e];
    assert forall i :: 0 <= i < |l| ==> l[i] == src[pos + i];
    if d + 1 < |src| && src[d] == '.' && IsDigit(src[d + 1]) {
      assert forall i :: 0 <= i < |l| && pos + i != d ==> IsDigit(l[i]);
    } else {
      assert e == d;
    }
  }

  lemma {:induction false} StepWellShaped(src: string, pos: nat, line: nat)
    requires pos < |src| && Step(src, pos, line).Ok? && Step(src, pos, line).value.token.Some?
    ensures WellShaped(Step(src, pos, line).value.token.value)
  {
    var c := src[pos];
    if SingleCharType(c).Some? {
      var t := Step(src, pos, line).value.token.value;
      assert t.lexeme == [c] && t.kind == SingleCharType(c).value;
      SingleCharNotWord(c);
    } else if OperatorTypes(c).Some? {
      assert Step(src, pos, line) == Ok(OperatorStep(src, pos, line));
      OperatorWellShaped(src, pos, line);
    } else if c == '/' {
    } else if c == '"' {
      assert Step(src, pos, line) == StringStep(src, pos, line);
      StringWellShaped(src, pos, line);
    } else if IsDigit(c) {
      assert Step(src, pos, line) == Ok(NumberStep(src, pos, line));
      NumberEndShape(src, pos);
    } else if IsAlpha(c) {
      assert Step(src, pos, line) == Ok(IdentifierStep(src, pos, line));
      IdentifierWellShaped(src, pos, line);
    }
  }

  /** A single-character type is none of the kinds with a lexeme of their own shape. */
  lemma {:induction false} SingleCharNotWord(c: char)
    requires SingleCharType(c).Some?
    ensures var k := SingleCharType(c).value;
      k !in {EOF, STRING, NUMBER, IDENTIFIER, SLASH} && !IsKeyword(k)
  {
  }

  /** Neither type of an operator is a kind with a lexeme of its own shape. */
  lemma {:induction false} OperatorNotWord(c: char)
    requires OperatorTypes(c).Some?
    ensures var ks := OperatorTypes(c).value;
      && ks.0 !in {EOF, STRING, NUMBER, IDENTIFIER, SLASH} && !IsKeyword(ks.0)
      && ks.1 !in {EOF, STRING, NUMBER, IDENTIFIER, SLASH} && !IsKeyword(ks.1)
  {
  }

  lemma {:induction false} OperatorWellShaped(src: string, pos: nat, line: nat)
    requires pos < |src| && OperatorTypes(src[pos]).Some?
    ensures WellShaped(OperatorStep(src, pos, line).token.value)
  {
    var t := OperatorStep(src, pos, line).token.value;
    assert OperatorShape(t.kind, t.lexeme);
    OperatorNotWord(src[pos]);
  }

  lemma {:induction false} StringWellShaped(src: string, pos: nat, line: nat)
    requires pos < |src| && src[pos] == '"' && StringStep(src, pos, line).Ok?
    ensures WellShaped(StringStep(src, pos, line).value.token.value)
  {
    var q := QuoteEnd(src, pos + 1);
    var l := src[pos..q + 1];
    var t := StringStep(src, pos, line).value.token.value;
    assert t.kind == STRING && t.lexeme == l && t.literal == StrLit(Unescape(src[pos + 1..q]));
    StringLexemeShape(src, pos, q);
    assert t.literal == StrLit(Unescape(l[1..|l| - 1]));
  }

  lemma {:induction false} StringLexemeShape(src: string, pos: nat, q: nat)
    requires pos < q < |src| && src[pos] == '"' && src[q] == '"'
    requires forall i :: pos < i < q ==> src[i] != '"'
    ensures var l := src[pos..q + 1]; StringShape(l) && l[1..|l| - 1] == src[pos + 1..q]
  {
    var l := src[pos..q + 1];
    assert forall i :: 0 <= i < |l| ==> l[i] == src[pos + i];
    assert l[1..|l| - 1] == src[pos + 1..q];
  }

  /** The type of an identifier lexeme is IDENTIFIER or a keyword. */
  lemma {:induction false} IdentifierTypeWord(l: string)
    ensures var k := IdentifierType(l);
      (k == IDENTIFIER || IsKeyword(k)) && k !in {EOF, STRING, NUMBER, SLASH}
  {
  }

  lemma {:induction false} IdentifierWellShaped(src: string, pos: nat, line: nat)
    requires pos < |src| && IsAlpha(src[pos])
    ensures WellShaped(IdentifierStep(src, pos, line).token.value)
  {
    var e := IdentEnd(src, pos + 1);
    var l := src[pos..e];
    IdentifierTypeWord(l);
    assert IdentifierStep(src, pos, line).token.value == Token(IdentifierType(l), l, NoLiteral, line);
    assert |l| == e - pos && forall i :: 0 <= i < |l| ==> l[i] == src[pos + i];
    assert IdentShape(l);
  }

  /** Every token of a successful scan is well shaped. */
  lemma {:induction false} ScanWellShaped(src: string, pos: nat, line: nat)
    requires pos <= |src| && ScanFrom(src, pos, line).Ok?
    ensures forall t :: t in ScanFrom(src, pos, line).value ==> WellShaped(t)
    decreases |src| - pos
  {
    if pos < |src| {
      var s := Step(src, pos, line).value;
      ScanWellShaped(src, s.next, s.line);
      if s.token.Some? {
        StepWellShaped(src, pos, line);
      }
    }
  }

  /** A string value never holds a '"': the scanner ends a string at the
      first quote, even one after a backslash, so the `\"` escape never
      applies. */
  lemma {:induction false} UnescapeQuoteFree(v: string)
    requires forall i :: 0 <= i < |v| ==> v[i] != '"'
    ensures forall i :: 0 <= i < |Unescape(v)| ==> Unescape(v)[i] != '"'
    decreases |v|
  {
    if |v| >= 2 && v[0] == '\\' && EscapeChar(v[1]).Some? {
      UnescapeQuoteFree(v[2..]);
    } else if |v| > 0 {
      UnescapeQuoteFree(v[1..]);
    }
  }

  /** A backslash followed by a quote ends the string literal at that quote:
      the literal keeps the backslash. */
  lemma {:induction false} EscapedQuoteEndsString(src: string, pos: nat, line: nat)
    requires pos + 3 <= |src| && src[pos] == '"' && src[pos + 1] == '\\' && src[pos + 2] == '"'
    ensures Step(src, pos, line) == Ok(Scanned(Some(Token(STRING, "\"\\\"", StrLit("\\"), line)), pos + 3, line))
  {
    assert QuoteEnd(src, pos + 1) == pos + 2 by {
      assert QuoteEnd(src, pos + 2) == pos + 2;
    }
    assert src[pos..pos + 3] == "\"\\\"";
    assert src[pos + 1..pos + 2] == "\\";
    assert Newlines("\\") == 0 by { assert "\\"[..0] == ""; }
    assert Unescape("\\") == "\\" by { assert "\\"[1..] == ""; }
  }

  // ---------------------------------------------------------------------
  // The scanner
  // ---------------------------------------------------------------------

  function Prepend(ts: seq<Token>, r: Result<seq<Token>, string>): Result<seq<Token>, string>
  {
    match r
    case Ok(rest) => Ok(ts + rest)
    case Err(e) => Err(e)
  }

  class Lexer {
    const source: string
    var tokens: seq<Token>
    var start: nat
    var current: nat
    var line: nat

    ghost predicate Valid()
      reads this
    {
      start <= current <= |source|
    }

    constructor (source: string)
      ensures this.source == source && tokens == [] && start == 0 && current == 0 && line == 1
      ensures Valid()
    {
      this.source := source;
      tokens := [];
      start := 0;
      current := 0;
      line := 1;
    }

    /** scan_tokens: the token list, ending with EOF, or the error raised. */
    method ScanTokens() returns (r: Result<seq<Token>, string>)
      requires Valid()
      modifies this
      ensures r == Prepend(old(tokens), ScanFrom(source, old(current), old(line)))
      ensures r.Ok? ==> tokens == r.value
    {
      while current < |source|
        invariant Valid()
        invariant Prepend(tokens, ScanFrom(source, current, line))
               == Prepend(old(tokens), ScanFrom(source, old(current), old(line)))
        decreases |source| - current
      {
        ghost var before, pos, atLine := tokens, current, line;
        start := current;
        var err := ScanToken();
        if err.Some? {
          return Err(err.value);
        }
        ghost var s := Step(source, pos, atLine).value;
        match ScanFrom(source, current, line)
        case Ok(rest) =>
          assert tokens + rest == before + (TokenList(s.token) + rest);
        case Err(_) =>
      }
      tokens := tokens + [Token(EOF, "", NoLiteral, line)];
      r := Ok(tokens);
    }

    /** scan_token: one step of the scanner, or the error it raises. */
    method ScanToken() returns (err: Option<string>)
      requires Valid() && start == current < |source|
      modifies this
      ensures Valid()
      ensures match Step(source, old(current), old(line))
        case Err(e) => err == Some(e)
        case Ok(s) => err == None && current == s.next && line == s.line
                      && tokens == old(tokens) + TokenList(s.token)
    {
      ghost var pos := current;
      var c := Advance();
      assert source[start..current] == [c];
      if SingleCharType(c).Some? {
        AddToken(SingleCharType(c).value, NoLiteral);
      } else if OperatorTypes(c).Some? {
        ScanOperator(c);
        assert Step(source, pos, old(line)) == Ok(OperatorStep(source, pos, old(line)));
      } else if c == '/' {
        ScanSlash();
        assert Step(source, pos, old(line)) == Ok(SlashStep(source, pos, old(line)));
      } else if c == ' ' || c == '\r' || c == '\t' {
      } else if c == '\n' {
        line := line + 1;
      } else {
        err := ScanLiteral(c);
        return;
      }
      err := None;
    }

    /** A character that starts no operator, comment or blank has been
        consumed: a string, a number, an identifier or keyword, or the
        error for an unexpected character. */
    method ScanLiteral(c: char) returns (err: Option<string>)
      requires Valid() && start + 1 == current && source[start] == c
      requires SingleCharType(c).None? && OperatorTypes(c).None? && c != '/'
      requires c != ' ' && c != '\r' && c != '\t' && c != '\n'
      modifies this
      ensures Valid()
      ensures match Step(source, old(start), old(line))
        case Err(e) => err == Some(e)
        case Ok(s) => err == None && current == s.next && line == s.line
                      && tokens == old(tokens) + TokenList(s.token)
    {
      ghost var pos := start;
      if c == '"' {
        err := String();
        assert Step(source, pos, old(line)) == StringStep(source, pos, old(line));
      } else if IsDigit(c) {
        Number();
        assert Step(source, pos, old(line)) == Ok(NumberStep(source, pos, old(line)));
        err := None;
      } else if IsAlpha(c) {
        Identifier();
        assert Step(source, pos, old(line)) == Ok(IdentifierStep(source, pos, old(line)));
        err := None;
      } else {
        err := Some("Unexpected character: " + [c] + " at line " + NatToString(line));
      }
    }

    /** `!`, `=`, `<` or `>` has been consumed: the one- or two-character
        operator it starts. */
    method ScanOperator(c: char)
      requires Valid() && start + 1 == current && source[start] == c && OperatorTypes(c).Some?
      modifies this
      ensures Valid() && line == old(line) && start == old(start)
      ensures var s := OperatorStep(source, start, line);
        current == s.next && tokens == old(tokens) + TokenList(s.token)
    {
      var two := Match('=');
      assert two ==> source[start..current] == [c, '='];
      assert !two ==> source[start..current] == [c];
      AddToken(if two then OperatorTypes(c).value.1 else OperatorTypes(c).value.0, NoLiteral);
    }

    /** `/` has been consumed: a comment to the end of the line, or SLASH. */
    method ScanSlash()
      requires Valid() && start + 1 == current && source[start] == '/'
      modifies this
      ensures Valid() && line == old(line) && start == old(start)
      ensures var s := SlashStep(source, start, line);
        current == s.next && tokens == old(tokens) + TokenList(s.token)
    {
      var comment := Match('/');
      if comment {
        SkipComment();
      } else {
        assert source[start..current] == "/";
        AddToken(SLASH, NoLiteral);
      }
    }

    method SkipComment()
      requires Valid()
      modifies this
      ensures Valid() && current == LineEnd(source, old(current))
      ensures tokens == old(tokens) && line == old(line) && start == old(start)
    {
      while true
        invariant Valid() && old(current) <= current <= LineEnd(source, old(current))
        invariant LineEnd(source, current) == LineEnd(source, old(current))
        invariant tokens == old(tokens) && line == old(line) && start == old(start)
        decreases |source| - current
      {
        var p := Peek();
        if p == '\n' || current >= |source| {
          break;
        }
        var _ := Advance();
      }
    }

    method Identifier()
      requires Valid() && start < current
      modifies this
      ensures Valid() && current == IdentEnd(source, old(current)) && line == old(line) && start == old(start)
      ensures tokens == old(tokens) + [Token(IdentifierType(source[start..current]), source[start..current], NoLiteral, line)]
    {
      while true
        invariant Valid() && old(current) <= current <= IdentEnd(source, old(current))
        invariant IdentEnd(source, current) == IdentEnd(source, old(current))
        invariant tokens == old(tokens) && line == old(line) && start == old(start)
        decreases |source| - current
      {
        var p := Peek();
        if !IsAlphaNumeric(p) {
          break;
        }
        var _ := Advance();
      }
      AddToken(IdentifierType(source[start..current]), NoLiteral);
    }

    method Number()
      requires Valid() && start < current
      modifies this
      ensures Valid() && current == NumberEnd(source, old(current)) && line == old(line) && start == old(start)
      ensures tokens == old(tokens) + [Token(NUMBER, source[start..current], NumLit(source[start..current]), line)]
    {
      Digits();
      var p := Peek();
      var n := PeekNext();
      if p == '.' && IsDigit(n) {
        var _ := Advance();
        Digits();
      }
      AddToken(NUMBER, NumLit(source[start..current]));
    }

    method Digits()
      requires Valid()
      modifies this
      ensures Valid() && current == DigitsEnd(source, old(current))
      ensures tokens == old(tokens) && line == old(line) && start == old(start)
    {
      while true
        invariant Valid() && old(current) <= current <= DigitsEnd(source, old(current))
        invariant DigitsEnd(source, current) == DigitsEnd(source, old(current))
        invariant tokens == old(tokens) && line == old(line) && start == old(start)
        decreases |source| - current
      {
        var p := Peek();
        if !IsDigit(p) {
          break;
        }
        var _ := Advance();
      }
    }

    /** string(): scans to the closing quote counting newlines, then adds the
        STRING token with the escapes of its contents processed. */
    method String() returns (err: Option<string>)
      requires Valid() && start + 1 == current && source[start] == '"'
      modifies this
      ensures Valid()
      ensures var q := QuoteEnd(source, old(current));
        && line == old(line) + Newlines(source[old(current)..q])
        && start == old(start)
        && (if q == |source| then err == Some("Unterminated string at line " + NatToString(line))
            else err == None && current == q + 1
                 && tokens == old(tokens) + [Token(STRING, source[start..q + 1], StrLit(Unescape(source[start + 1..q])), line)])
    {
      StringContents();
      if current >= |source| {
        return Some("Unterminated string at line " + NatToString(line));
      }
      var _ := Advance();
      var value := source[start + 1..current - 1];
      var processed := ProcessEscapes(value);
      AddToken(STRING, StrLit(processed));
      err := None;
    }

    /** The loop of string(): runs to the closing quote or the end of the
        source, counting the newlines it passes. */
    method StringContents()
      requires Valid()
      modifies this
      ensures Valid() && current == QuoteEnd(source, old(current))
      ensures line == old(line) + Newlines(source[old(current)..current])
      ensures tokens == old(tokens) && start == old(start)
    {
      while true
        invariant Valid() && old(current) <= current <= QuoteEnd(source, old(current))
        invariant QuoteEnd(source, current) == QuoteEnd(source, old(current))
        invariant line == old(line) + Newlines(source[old(current)..current])
        invariant tokens == old(tokens) && start == old(start)
        decreases |source| - current
      {
        var p := Peek();
        if p == '"' || current >= |source| {
          break;
        }
        NewlinesExtend(source, old(current), current);
        if p == '\n' {
          line := line + 1;
        }
        var _ := Advance();
      }
    }

    method Advance() returns (c: char)
      requires Valid() && current < |source|
      modifies this
      ensures Valid() && c == source[old(current)] && current == old(current) + 1
      ensures tokens == old(tokens) && line == old(line) && start == old(start)
    {
      c := source[current];
      current := current + 1;
    }

    method Match(expected: char) returns (b: bool)
      requires Valid()
      modifies this
      ensures Valid() && b == (old(current) < |source| && source[old(current)] == expected)
      ensures current == old(current) + (if b then 1 else 0)
      ensures tokens == old(tokens) && line == old(line) && start == old(start)
    {
      if current >= |source| {
        return false;
      }
      if source[current] != expected {
        return false;
      }
      current := current + 1;
      return true;
    }

    /** peek(): the current character, or NUL at the end. */
    method Peek() returns (c: char)
      requires Valid()
      ensures c == if current < |source| then source[current] else '\0'
    {
      if current >= |source| {
        return '\0';
      }
      return source[current];
    }

    method PeekNext() returns (c: char)
      requires Valid()
      ensures c == if current + 1 < |source| then source[current + 1] else '\0'
    {
      if current + 1 >= |source| {
        return '\0';
      }
      return source[current + 1];
    }

    method AddToken(kind: TokenType, literal: Literal)
      requires Valid()
      modifies this
      ensures Valid() && current == old(current) && line == old(line) && start == old(start)
      ensures tokens == old(tokens) + [Token(kind, source[start..current], literal, line)]
    {
      tokens := tokens + [Token(kind, source[start..current], literal, line)];
    }
  }

  /** The escape-processing loop of string(). */
  method ProcessEscapes(value: string) returns (processed: string)
    ensures processed == Unescape(value)
  {
    processed := "";
    var i := 0;
    while i < |value|
      invariant 0 <= i <= |value|
      invariant processed + Unescape(value[i..]) == Unescape(value)
      decreases |value| - i
    {
      UnescapeAt(value, i);
      if value[i] == '\\' && i + 1 < |value| {
        var e := EscapeChar(value[i + 1]);
        if e.Some? {
          assert processed + Unescape(value[i..]) == (processed + [e.value]) + Unescape(value[i + 2..]);
          processed := processed + [e.value];
          i := i + 2;
          continue;
        }
      }
      assert processed + Unescape(value[i..]) == (processed + [value[i]]) + Unescape(value[i + 1..]);
      processed := processed + [value[i]];
      i := i + 1;
    }
    assert value[i..] == [];
  }

  /** Unescape, read from position `i`: one escape or one plain character,
      then the rest. */
  lemma {:induction false} UnescapeAt(v: string, i: nat)
    requires i < |v|
    ensures v[i] == '\\' && i + 1 < |v| && EscapeChar(v[i + 1]).Some? ==>
      Unescape(v[i..]) == [EscapeChar(v[i + 1]).value] + Unescape(v[i + 2..])
    ensures !(v[i] == '\\' && i + 1 < |v| && EscapeChar(v[i + 1]).Some?) ==>
      Unescape(v[i..]) == [v[i]] + Unescape(v[i + 1..])
  {
    assert v[i..][1..] == v[i + 1..];
    if i + 1 < |v| {
      assert v[i..][2..] == v[i + 2..];
    }
  }
}
