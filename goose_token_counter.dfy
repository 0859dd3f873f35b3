/** Goose Tools' token estimators (goose_tools/utils/token_counter.py): a
    characters-per-token estimate, a word-and-punctuation count for Claude,
    a subword estimate for OpenAI, and the per-role statistics of a JSONL
    session file. Reading the file and `json.loads` are parameters. */
module GooseTokenCounter {
  import opened Base
  import opened PyJson

  /** Python's `a // b` (floor division) for b != 0. */
  function FloorDiv(a: int, b: int): int
    requires b != 0
  {
    if b > 0 then a / b else (-a) / (-b)
  }

  lemma {:induction false} FloorDivIsFloor(a: int, b: int)
    requires b != 0
    ensures b * FloorDiv(a, b) <= a < b * FloorDiv(a, b) + b || b * FloorDiv(a, b) + b < a <= b * FloorDiv(a, b)
  {
  }

  /** `estimate_tokens_chars`: 0 for "", else len(text) // chars_per_token,
      which raises ZeroDivisionError for a zero divisor. */
  function EstimateTokensChars(text: string, charsPerToken: int): (r: Result<int, string>)
    ensures text == "" ==> r == Ok(0)
    ensures text != "" ==> (r.Err? <==> charsPerToken == 0)
    ensures text != "" && charsPerToken > 0 ==> r.Ok? && charsPerToken * r.value <= |text| < charsPerToken * (r.value + 1)
  {
    if text == "" then Ok(0)
    else if charsPerToken == 0 then Err("ZeroDivisionError: integer division or modulo by zero")
    else Ok(FloorDiv(|text|, charsPerToken))
  }

  // ---------------------------------------------------------------------
  // re.findall(r'\w+|[^\w\s]', text)
  // ---------------------------------------------------------------------

  /** The length of the leading run of word characters. */
  function WordRun(s: string): (n: nat)
    ensures n <= |s|
    ensures forall i :: 0 <= i < n ==> IsWordChar(s[i])
    ensures n < |s| ==> !IsWordChar(s[n])
  {
    if s == [] || !IsWordChar(s[0]) then 0 else 1 + WordRun(s[1..])
  }

  /** A maximal run of word characters, or one character that is neither a
      word character nor whitespace. */
  predicate IsToken(t: string)
  {
    t != [] && ((forall i :: 0 <= i < |t| ==> IsWordChar(t[i])) || (|t| == 1 && !IsWordChar(t[0]) && !IsSpace(t[0])))
  }

  function Tokens(s: string): (r: seq<string>)
    ensures forall k :: 0 <= k < |r| ==> IsToken(r[k])
    decreases |s|
  {
    if s == [] then []
    else if IsWordChar(s[0]) then [s[..WordRun(s)]] + Tokens(s[WordRun(s)..])
    else if IsSpace(s[0]) then Tokens(s[1..])
    else [[s[0]]] + Tokens(s[1..])
  }

  /** The total length of some tokens. */
  function TotalLength(ts: seq<string>): nat
  {
    if ts == [] then 0 else |ts[0]| + TotalLength(ts[1..])
  }

  /** The tokens take up at most the whole text, one token per character at
      most. */
  lemma {:induction false} TokensFit(s: string)
    ensures |Tokens(s)| <= TotalLength(Tokens(s)) <= |s|
    decreases |s|
  {
    if s != [] {
      if IsWordChar(s[0]) {
        TokensFit(s[WordRun(s)..]);
      } else {
        TokensFit(s[1..]);
      }
    }
  }

  /** `estimate_tokens_claude`: the number of tokens. */
  function EstimateTokensClaude(text: string): (n: nat)
    ensures text == "" ==> n == 0
    ensures n <= |text|
  {
    if text == "" then 0 else TokensFit(text); |Tokens(text)|
  }

  /** The OpenAI estimate for one token: 1 up to five characters, else a
      quarter of the length, rounded up. */
  function SubwordCount(t: string): (n: nat)
    ensures n >= 1
    ensures t != [] ==> n <= |t|
  {
    if |t| <= 2 then 1 else if |t| <= 5 then 1 else (|t| + 3) / 4
  }

  function SubwordTotal(ts: seq<string>): nat
  {
    if ts == [] then 0 else SubwordTotal(ts[..|ts| - 1]) + SubwordCount(ts[|ts| - 1])
  }

  /** `estimate_tokens_openai`: the loop summing the per-token estimates. */
  method EstimateTokensOpenai(text: string) returns (tokenCount: nat)
    ensures tokenCount == if text == "" then 0 else SubwordTotal(Tokens(text))
  {
    if text == "" {
      return 0;
    }
    var tokens := Tokens(text);
    tokenCount := 0;
    for k := 0 to |tokens|
      invariant tokenCount == SubwordTotal(tokens[..k])
    {
      assert tokens[..k + 1][..k] == tokens[..k];
      var token := tokens[k];
      if |token| <= 2 {
        tokenCount := tokenCount + 1;
      } else if |token| <= 5 {
        tokenCount := tokenCount + 1;
      } else {
        tokenCount := tokenCount + (|token| + 3) / 4;
      }
    }
    assert tokens[..|tokens|] == tokens;
  }

  /** Every token counts at least one and at most its length. */
  lemma {:induction false} SubwordTotalBounds(ts: seq<string>)
    requires forall k :: 0 <= k < |ts| ==> ts[k] != []
    ensures |ts| <= SubwordTotal(ts) <= TotalLength(ts)
    decreases |ts|
  {
    if ts != [] {
      var init := ts[..|ts| - 1];
      SubwordTotalBounds(init);
      TotalLengthSnoc(init, ts[|ts| - 1]);
      assert init + [ts[|ts| - 1]] == ts;
    }
  }

  lemma {:induction false} TotalLengthSnoc(ts: seq<string>, t: string)
    ensures TotalLength(ts + [t]) == TotalLength(ts) + |t|
    decreases |ts|
  {
    if ts != [] {
      assert (ts + [t])[1..] == ts[1..] + [t];
      TotalLengthSnoc(ts[1..], t);
    } else {
      assert (ts + [t])[1..] == [];
    }
  }

  /** The OpenAI estimate is never below the Claude estimate and never
      above the text's length. */
  lemma {:induction false} OpenaiBounds(text: string)
    ensures var openai := if text == "" then 0 else SubwordTotal(Tokens(text));
      EstimateTokensClaude(text) <= openai <= |text|
  {
    if text != "" {
      SubwordTotalBounds(Tokens(text));
      TokensFit(text);
    }
  }

  // ---------------------------------------------------------------------
  // count_tokens_in_jsonl
  // ---------------------------------------------------------------------

  type Stats = map<string, int>

  const Total: string := "total"
  const User: string := "user"
  const Assistant: string := "assistant"
  const System: string := "system"
  const Other: string := "other"
  const Messages: string := "messages"

  const Zero: Stats := map[Total := 0, User := 0, Assistant := 0, System := 0, Other := 0, Messages := 0]

  /** The statistics dictionary has exactly the six keys. */
  predicate HasKeys(st: Stats)
  {
    st.Keys == {Total, User, Assistant, System, Other, Messages}
  }

  lemma {:induction false} KeysDistinct()
    ensures Total != User && Total != Assistant && Total != System && Total != Other && Total != Messages
    ensures Messages != User && Messages != Assistant && Messages != System && Messages != Other
  {
  }

  /** `estimate_tokens_chars(content)` for any JSON value: 0 for a falsy one,
      len // 4 for a string, list or object, and a TypeError (None) for
      anything else. */
  function ContentTokens(content: Json): (r: Option<nat>)
    ensures content.JStr? ==> r == Some(|content.s| / 4)
    ensures r.None? <==> Truthy(content) && !content.JStr? && !content.JList? && !content.JObj?
  {
    if !Truthy(content) then Some(0)
    else if content.JStr? then Some(|content.s| / 4)
    else if content.JList? then Some(|content.items| / 4)
    else if content.JObj? then Some(|content.fields| / 4)
    else None
  }

  /** The outcome of one line: the statistics after it, and whether an
      exception other than JSONDecodeError ended the loop there. */
  datatype Step = Step(stats: Stats, stopped: bool)

  function Bump(st: Stats, key: string, n: int): (r: Stats)
    requires key in st
    ensures r.Keys == st.Keys
  {
    st[key := st[key] + n]
  }

  /** One line of the loop: blank lines and lines json.loads rejects are
      skipped; a decoded line counts as a message; its content's tokens go to
      the total and then to its role's entry, or to "other". */
  function LineStep(st: Stats, raw: string, loads: string -> Option<Json>): (r: Step)
    requires HasKeys(st)
    ensures HasKeys(r.stats)
  {
    var line := Strip(raw);
    if line == "" then Step(st, false)
    else
      var parsed := loads(line);
      if parsed.None? then Step(st, false)
      else MessageStep(Bump(st, Messages, 1), parsed.value)
  }

  /** The rest of the line step once the message has been counted: a
      message that is not a dictionary, or whose content or role has the
      wrong type, raises; otherwise its tokens go to the total and then to
      its role's entry, or to "other". */
  function MessageStep(st1: Stats, message: Json): (r: Step)
    requires HasKeys(st1)
    ensures HasKeys(r.stats)
  {
    if !message.JObj? then Step(st1, true)
    else
      var content := Get(message.fields, "content", JStr(""));
      var role := Get(message.fields, "role", JStr("other"));
      var tokens := ContentTokens(content);
      if tokens.None? then Step(st1, true)
      else
        var st2 := Bump(st1, Total, tokens.value);
        if role.JList? || role.JObj? then Step(st2, true)
        else if role.JStr? && role.s in st2 then Step(Bump(st2, role.s, tokens.value), false)
        else Step(Bump(st2, Other, tokens.value), false)
  }

  /** The statistics after the lines, stopping at the first line that
      raises. */
  function Run(st: Stats, lines: seq<string>, loads: string -> Option<Json>): (r: Stats)
    requires HasKeys(st)
    ensures HasKeys(r)
    decreases |lines|
  {
    if lines == [] then st
    else
      var s := LineStep(st, lines[0], loads);
      if s.stopped then s.stats else Run(s.stats, lines[1..], loads)
  }

  /** `count_tokens_in_jsonl`: the zero statistics when the file cannot be
      opened, else the statistics of its lines. */
  function CountTokensInJsonl(fileOpened: bool, lines: seq<string>, loads: string -> Option<Json>): (r: Stats)
    ensures HasKeys(r)
    ensures !fileOpened ==> r == Zero
  {
    if fileOpened then Run(Zero, lines, loads) else Zero
  }

  /** The loop over the file's lines, returning from inside it when an
      exception reaches the outer handler. */
  method CountTokensInJsonlLoop(fileOpened: bool, lines: seq<string>, loads: string -> Option<Json>) returns (stats: Stats)
    ensures stats == CountTokensInJsonl(fileOpened, lines, loads)
  {
    stats := Zero;
    if !fileOpened {
      return;
    }
    var k := 0;
    while k < |lines|
      invariant 0 <= k <= |lines|
      invariant HasKeys(stats)
      invariant Run(stats, lines[k..], loads) == Run(Zero, lines, loads)
    {
      assert lines[k..][1..] == lines[k + 1..];
      var line := Strip(lines[k]);
      if line == "" {
        k := k + 1;
        continue;
      }
      var parsed := loads(line);
      if parsed.None? {
        k := k + 1;
        continue;
      }
      stats := Bump(stats, Messages, 1);
      var message := parsed.value;
      if !message.JObj? {
        return;
      }
      var content := Get(message.fields, "content", JStr(""));
      var role := Get(message.fields, "role", JStr("other"));
      var tokens := ContentTokens(content);
      if tokens.None? {
        return;
      }
      stats := Bump(stats, Total, tokens.value);
      if role.JList? || role.JObj? {
        return;
      }
      if role.JStr? && role.s in stats {
        stats := Bump(stats, role.s, tokens.value);
      } else {
        stats := Bump(stats, Other, tokens.value);
      }
      k := k + 1;
    }
  }

  /** A message that is a dictionary whose content is a string, list or
      object (or falsy) and whose role is not a list or object and not the
      string "total" or "messages". */
  predicate GoodMessage(m: Json)
  {
    && m.JObj?
    && ContentTokens(Get(m.fields, "content", JStr(""))).Some?
    && var role := Get(m.fields, "role", JStr("other"));
      !role.JList? && !role.JObj? && role != JStr(Total) && role != JStr(Messages)
  }

  /** The total is the sum of the four role entries. */
  predicate Balanced(st: Stats)
    requires HasKeys(st)
  {
    st[Total] == st[User] + st[Assistant] + st[System] + st[Other]
  }

  /** Counting a message and crediting its tokens to the total and to one
      role entry other than "total" and "messages" keeps the balance and
      adds one message. */
  lemma {:induction false} CreditBalanced(st: Stats, key: string, n: int)
    requires HasKeys(st) && Balanced(st)
    requires key in st && key != Total && key != Messages
    ensures var st1 := Bump(Bump(Bump(st, Messages, 1), Total, n), key, n);
      HasKeys(st1) && Balanced(st1) && st1[Messages] == st[Messages] + 1
  {
    KeysDistinct();
  }

  /** The number of non-blank lines json.loads decodes. */
  function Decoded(lines: seq<string>, loads: string -> Option<Json>): nat
  {
    if lines == [] then 0
    else (if Strip(lines[0]) != "" && loads(Strip(lines[0])).Some? then 1 else 0) + Decoded(lines[1..], loads)
  }

  /** One line that is blank, undecodable or a good message: the loop goes
      on, the balance is kept, and one message is counted when it decodes. */
  lemma {:induction false} GoodLineStep(st: Stats, raw: string, loads: string -> Option<Json>)
    requires HasKeys(st) && Balanced(st)
    requires var p := loads(Strip(raw)); Strip(raw) == "" || p.None? || GoodMessage(p.value)
    ensures var s := LineStep(st, raw, loads);
      && !s.stopped && Balanced(s.stats)
      && s.stats[Messages] == st[Messages] + (if Strip(raw) != "" && loads(Strip(raw)).Some? then 1 else 0)
  {
    var line := Strip(raw);
    if line != "" && loads(line).Some? {
      var m := loads(line).value;
      var role := Get(m.fields, "role", JStr("other"));
      var n := ContentTokens(Get(m.fields, "content", JStr(""))).value;
      var st1 := Bump(st, Messages, 1);
      var st2 := Bump(st1, Total, n);
      if role.JStr? && role.s in st2 {
        CreditBalanced(st, role.s, n);
      } else {
        CreditBalanced(st, Other, n);
      }
    }
  }

  /** The role entry a good message's tokens go to: its role when that is
      a key of the statistics, else "other". */
  function Bucket(role: Json): string
  {
    if role.JStr? && role.s in {User, Assistant, System, Other} then role.s else Other
  }

  /** A good message's tokens go to the total and to its role's entry, and
      every other entry stays as it was. */
  lemma {:induction false} GoodMessageCredited(st: Stats, raw: string, loads: string -> Option<Json>)
    requires HasKeys(st)
    requires Strip(raw) != "" && loads(Strip(raw)).Some? && GoodMessage(loads(Strip(raw)).value)
    ensures var m := loads(Strip(raw)).value;
      var n := ContentTokens(Get(m.fields, "content", JStr(""))).value;
      var key := Bucket(Get(m.fields, "role", JStr("other")));
      var r := LineStep(st, raw, loads).stats;
      && r[Total] == st[Total] + n
      && r[Messages] == st[Messages] + 1
      && r[key] == st[key] + n
      && forall k :: k in st && k != key && k != Total && k != Messages ==> r[k] == st[k]
  {
    var m := loads(Strip(raw)).value;
    var n := ContentTokens(Get(m.fields, "content", JStr(""))).value;
    var bucket := Bucket(Get(m.fields, "role", JStr("other")));
    assert LineStep(st, raw, loads).stats == Bump(Bump(Bump(st, Messages, 1), Total, n), bucket, n);
    CreditEntries(st, bucket, n);
  }

  lemma {:induction false} CreditEntries(st: Stats, key: string, n: int)
    requires HasKeys(st) && key in {User, Assistant, System, Other}
    ensures var r := Bump(Bump(Bump(st, Messages, 1), Total, n), key, n);
      && r[Total] == st[Total] + n
      && r[Messages] == st[Messages] + 1
      && r[key] == st[key] + n
      && forall k :: k in st && k != key && k != Total && k != Messages ==> r[k] == st[k]
  {
    KeysDistinct();
  }

  /** Every line blank, undecodable, or a good message: the loop runs to
      the end, counts one message per decoded line, and the total is the
      sum of the four role entries. */
  lemma {:induction false} GoodLinesBalance(st: Stats, lines: seq<string>, loads: string -> Option<Json>)
    requires HasKeys(st) && Balanced(st)
    requires forall k :: 0 <= k < |lines| ==> var p := loads(Strip(lines[k])); Strip(lines[k]) == "" || p.None? || GoodMessage(p.value)
    ensures Balanced(Run(st, lines, loads))
    ensures Run(st, lines, loads)[Messages] == st[Messages] + Decoded(lines, loads)
    decreases |lines|
  {
    if lines != [] {
      GoodLineStep(st, lines[0], loads);
      var s := LineStep(st, lines[0], loads);
      assert forall k :: 0 < k < |lines| ==> lines[1..][k - 1] == lines[k];
      GoodLinesBalance(s.stats, lines[1..], loads);
    }
  }

  /** The line step for a message whose role is "total". */
  lemma {:induction false} TotalRoleStep(st: Stats, line: string, loads: string -> Option<Json>, n: nat)
    requires HasKeys(st)
    requires Strip(line) == line && line != ""
    requires loads(line).Some? && loads(line).value.JObj?
    requires Get(loads(line).value.fields, "role", JStr("other")) == JStr(Total)
    requires ContentTokens(Get(loads(line).value.fields, "content", JStr(""))) == Some(n)
    ensures LineStep(st, line, loads) == Step(Bump(Bump(Bump(st, Messages, 1), Total, n), Total, n), false)
  {
    LineStepDecoded(st, line, loads);
    TotalRoleMessage(Bump(st, Messages, 1), loads(line).value, n);
  }

  /** A non-blank stripped line that decodes is counted, and the rest is
      the message step. */
  lemma {:induction false} LineStepDecoded(st: Stats, line: string, loads: string -> Option<Json>)
    requires HasKeys(st)
    requires Strip(line) == line && line != "" && loads(line).Some?
    ensures LineStep(st, line, loads) == MessageStep(Bump(st, Messages, 1), loads(line).value)
  {
  }

  lemma {:induction false} TotalRoleMessage(st1: Stats, m: Json, n: nat)
    requires HasKeys(st1) && m.JObj?
    requires Get(m.fields, "role", JStr("other")) == JStr(Total)
    requires ContentTokens(Get(m.fields, "content", JStr(""))) == Some(n)
    ensures MessageStep(st1, m) == Step(Bump(Bump(st1, Total, n), Total, n), false)
  {
    assert Total in Bump(st1, Total, n);
  }

  /** A message whose role is "total" is added to the total twice, and to
      no role entry. */
  lemma {:induction false} RoleTotalCountedTwice(line: string, loads: string -> Option<Json>, n: nat)
    requires Strip(line) == line && line != ""
    requires loads(line).Some? && loads(line).value.JObj?
    requires Get(loads(line).value.fields, "role", JStr("other")) == JStr(Total)
    requires ContentTokens(Get(loads(line).value.fields, "content", JStr(""))) == Some(n)
    ensures var st := CountTokensInJsonl(true, [line], loads);
      st[Total] == 2 * n && st[User] + st[Assistant] + st[System] + st[Other] == 0
  {
    TotalRoleStep(Zero, line, loads, n);
    RunSingle(Zero, line, loads);
    DoubledTotal(n);
  }

  lemma {:induction false} RunSingle(st: Stats, line: string, loads: string -> Option<Json>)
    requires HasKeys(st)
    ensures Run(st, [line], loads) == LineStep(st, line, loads).stats
  {
    assert [line][0] == line && [line][1..] == [];
  }

  lemma {:induction false} DoubledTotal(n: nat)
    ensures var st3 := Bump(Bump(Bump(Zero, Messages, 1), Total, n), Total, n);
      st3[Total] == 2 * n && st3[User] + st3[Assistant] + st3[System] + st3[Other] == 0
  {
    KeysDistinct();
  }
}
