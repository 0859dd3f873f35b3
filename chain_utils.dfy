/** The prompt-chain utilities of SolnAI
    (SolnAI-agents/shared/examples/prompt_chains/chain_utils.py): the JSON,
    list and key-value output parsers with their format instructions,
    `PromptTemplate.format` over `str.format`, the `ChainMetrics` tracker and
    `create_chain_step`. `json.loads` and the clock are parameters. */
module ChainUtils {
  import opened Base
  import opened PyJson

  /** What the utilities raise. */
  datatype ChainError =
    | ParseError(message: string)
      /** ValueError from `line.split("", 1)`. */
    | EmptySeparator
      /** The KeyError of `PromptTemplate.format`, naming the missing variables. */
    | MissingVariables(names: set<string>)
      /** The KeyError of `str.format` for a field not among the arguments. */
    | MissingKey(name: string)
      /** The IndexError of `str.format` for `{}` or `{0}`: no positional arguments are passed. */
    | PositionalField
      /** The ValueError of `str.format` for an unmatched '{' or '}'. */
    | MalformedTemplate
      /** A field with an attribute, index, conversion or format spec. */
    | UnsupportedField(field: string)

  // ---------------------------------------------------------------------
  // ListOutputParser
  // ---------------------------------------------------------------------

  /** The tail `\s+(.+)$` shared by both list patterns, applied to what
      follows the marker, with the group stripped. `.+` needs a character,
      so when only whitespace follows, the greedy `\s+` gives its last
      character back and the item strips to "". */
  function TailItem(rest: string): Option<string>
  {
    var n := LeadingSpace(rest);
    if n == 0 then None
    else if n < |rest| then Some(Strip(rest[n..]))
    else if n >= 2 then Some(Strip(rest[n - 1..]))
    else None
  }

  /** `re.match(r'^\s*[-*]\s+(.+)$', line)`, the default item pattern. */
  function BulletItem(line: string): Option<string>
  {
    var n := LeadingSpace(line);
    if n < |line| && (line[n] == '-' || line[n] == '*') then TailItem(line[n + 1..]) else None
  }

  /** The length of the run of digits starting at j. */
  function DigitRun(s: string, j: nat): (n: nat)
    requires j <= |s|
    ensures j + n <= |s|
    ensures forall k :: j <= k < j + n ==> IsDigit(s[k])
    ensures j + n < |s| ==> !IsDigit(s[j + n])
    decreases |s| - j
  {
    if j == |s| || !IsDigit(s[j]) then 0 else 1 + DigitRun(s, j + 1)
  }

  /** `re.match(r'^\s*\d+\.\s+(.+)$', line)`. */
  function NumberedItem(line: string): Option<string>
  {
    var n := LeadingSpace(line);
    var d := DigitRun(line, n);
    if d >= 1 && n + d < |line| && line[n + d] == '.' then TailItem(line[n + d + 1..]) else None
  }

  datatype ListStyle = Bullet | Numbered

  function ItemOf(style: ListStyle, line: string): Option<string>
  {
    match style
    case Bullet => BulletItem(line)
    case Numbered => NumberedItem(line)
  }

  /** What the pattern gives for each line, in line order. */
  function Matches(style: ListStyle, lines: seq<string>): (ms: seq<Option<string>>)
    ensures |ms| == |lines| && forall i :: 0 <= i < |lines| ==> ms[i] == ItemOf(style, lines[i])
  {
    seq(|lines|, i requires 0 <= i < |lines| => ItemOf(style, lines[i]))
  }

  /** The values of the matches that succeeded, in order. */
  function Somes(ms: seq<Option<string>>): seq<string>
  {
    if ms == [] then []
    else
      var m := ms[|ms| - 1];
      Somes(ms[..|ms| - 1]) + (if m.Some? then [m.value] else [])
  }

  /** The items of the lines the pattern matches, in line order. */
  function Items(style: ListStyle, lines: seq<string>): seq<string>
  {
    Somes(Matches(style, lines))
  }

  const NoListMessage := "Could not find a list in the output"

  /** `ListOutputParser().parse(text)`: the bullet items, else the numbered
      items, else a ParseError. */
  function ParseListText(text: string): Result<seq<string>, ChainError>
  {
    var lines := SplitOn(text, '\n');
    var bullets := Items(Bullet, lines);
    if bullets != [] then Ok(bullets)
    else
      var numbered := Items(Numbered, lines);
      if numbered != [] then Ok(numbered) else Err(ParseError(NoListMessage))
  }

  /** One pass of `parse` over the lines, appending each match's item. */
  method CollectItems(style: ListStyle, lines: seq<string>) returns (items: seq<string>)
    ensures items == Items(style, lines)
  {
    ghost var ms := Matches(style, lines);
    items := [];
    for k := 0 to |lines|
      invariant items == Somes(ms[..k])
    {
      assert ms[..k + 1][..k] == ms[..k];
      var m := ItemOf(style, lines[k]);
      if m.Some? {
        items := items + [m.value];
      }
    }
    assert ms[..|lines|] == ms;
  }

  method ParseList(text: string) returns (r: Result<seq<string>, ChainError>)
    ensures r == ParseListText(text)
  {
    var lines := SplitOn(text, '\n');
    var items := CollectItems(Bullet, lines);
    if items == [] {
      items := CollectItems(Numbered, lines);
    }
    if items == [] {
      return Err(ParseError(NoListMessage));
    }
    return Ok(items);
  }

  /** The successes of two runs of matches are those of each, in order. */
  lemma {:induction false} SomesAppend(a: seq<Option<string>>, b: seq<Option<string>>)
    ensures Somes(a + b) == Somes(a) + Somes(b)
    decreases |b|
  {
    if b == [] {
      assert a + b == a;
    } else {
      assert (a + b)[..|a + b| - 1] == a + b[..|b| - 1];
      SomesAppend(a, b[..|b| - 1]);
    }
  }

  /** The items of two runs of lines are the items of each, in order. */
  lemma {:induction false} ItemsAppend(style: ListStyle, a: seq<string>, b: seq<string>)
    ensures Items(style, a + b) == Items(style, a) + Items(style, b)
  {
    var ma, mb, mab := Matches(style, a), Matches(style, b), Matches(style, a + b);
    forall i | 0 <= i < |mab|
      ensures mab[i] == (ma + mb)[i]
    {
      if i < |a| {
        assert (a + b)[i] == a[i];
      } else {
        assert (a + b)[i] == b[i - |a|];
      }
    }
    assert mab == ma + mb;
    SomesAppend(ma, mb);
  }

  /** When every match succeeds, the successes are the values. */
  lemma {:induction false} SomesOfAll(xs: seq<string>, ms: seq<Option<string>>)
    requires |ms| == |xs| && forall i :: 0 <= i < |xs| ==> ms[i] == Some(xs[i])
    ensures Somes(ms) == xs
    decreases |xs|
  {
    if xs != [] {
      SomesOfAll(xs[..|xs| - 1], ms[..|ms| - 1]);
    }
  }

  /** An item a list parser hands back with nothing around it. */
  predicate CleanItem(item: string)
  {
    item != "" && '\n' !in item && !IsSpace(item[0]) && !IsSpace(item[|item| - 1])
  }

  /** The line a bullet list shows an item on, as the format instructions ask. */
  function BulletLine(item: string): string
  {
    "- " + item
  }

  /** A space and then a clean item is the tail of both patterns. */
  lemma {:induction false} TailOfClean(item: string)
    requires CleanItem(item)
    ensures TailItem(" " + item) == Some(item)
  {
    var rest := " " + item;
    assert rest[1..] == item;
    assert LeadingSpace(rest) == 1;
    StripOfStripped(item);
  }

  lemma {:induction false} BulletLineItem(item: string)
    requires CleanItem(item)
    ensures BulletItem(BulletLine(item)) == Some(item)
  {
    var line := BulletLine(item);
    assert LeadingSpace(line) == 0;
    assert line[1..] == " " + item;
    TailOfClean(item);
  }

  /** Bullet lines of clean items give back the items. */
  lemma {:induction false} ItemsOfBulletLines(items: seq<string>)
    requires forall k :: 0 <= k < |items| ==> CleanItem(items[k])
    ensures Items(Bullet, MapSeq(BulletLine, items)) == items
  {
    var ms := Matches(Bullet, MapSeq(BulletLine, items));
    forall i | 0 <= i < |items|
      ensures ms[i] == Some(items[i])
    {
      BulletLineItem(items[i]);
    }
    SomesOfAll(items, ms);
  }

  /** A bullet list rendered one item per line parses back to its items. */
  lemma {:induction false} ListRoundTrip(items: seq<string>)
    requires items != [] && forall k :: 0 <= k < |items| ==> CleanItem(items[k])
    ensures ParseListText(Join(MapSeq(BulletLine, items), "\n")) == Ok(items)
  {
    var lines := MapSeq(BulletLine, items);
    forall k | 0 <= k < |lines|
      ensures '\n' !in lines[k]
    {
      assert lines[k] == "- " + items[k];
    }
    JoinSplitOn(lines, '\n');
    ItemsOfBulletLines(items);
  }

  /** The line a numbered list shows an item on. */
  function NumberedLine(k: nat, item: string): string
  {
    NatToString(k) + ". " + item
  }

  /** A numbered line is no bullet line: numbered items count only when
      there are no bullets. */
  lemma {:induction false} NumberedLineNoBullet(k: nat, item: string)
    ensures BulletItem(NumberedLine(k, item)).None?
  {
    var digits := NatToString(k);
    var line := NumberedLine(k, item);
    assert line[0] == digits[0];
    assert LeadingSpace(line) == 0;
  }

  /** A numbered line gives its item to the numbered pattern. */
  lemma {:induction false} NumberedLineItem(k: nat, item: string)
    requires CleanItem(item)
    ensures NumberedItem(NumberedLine(k, item)) == Some(item)
  {
    var digits := NatToString(k);
    var line := NumberedLine(k, item);
    assert line[0] == digits[0];
    assert LeadingSpace(line) == 0;
    assert line[..|digits|] == digits && line[|digits|] == '.';
    DigitRunIs(line, digits);
    assert line[|digits| + 1..] == " " + item;
    TailOfClean(item);
  }

  lemma {:induction false} DigitRunIs(line: string, digits: string)
    requires |digits| < |line| && line[..|digits|] == digits && !IsDigit(line[|digits|])
    requires forall i :: 0 <= i < |digits| ==> IsDigit(digits[i])
    ensures DigitRun(line, 0) == |digits|
  {
  }

  const ListInstructions := "Respond with a bullet-point list, with each item on a new line starting with '- ' or '* '."

  // ---------------------------------------------------------------------
  // KeyValueOutputParser
  // ---------------------------------------------------------------------

  /** A line the parser looks at: not blank and not a '#' comment once
      stripped. */
  predicate KvCandidate(line: string)
  {
    var t := Strip(line);
    t != "" && t[0] != '#'
  }

  /** The pair a line gives: split at the first separator, both sides
      stripped; None for a line without one. */
  function KvPair(line: string, sep: string): Option<(string, string)>
    requires sep != ""
  {
    var t := Strip(line);
    if t == "" || t[0] == '#' then None else SplitPair(t, sep)
  }

  /** `line.split(sep, 1)` with both parts stripped, when there are two. */
  function SplitPair(t: string, sep: string): Option<(string, string)>
    requires sep != ""
  {
    match Find(t, sep)
    case None => None
    case Some(i) => Some((Strip(t[..i]), Strip(t[i + |sep|..])))
  }

  /** The pair each line gives, in line order. */
  function KvPairs(lines: seq<string>, sep: string): (ps: seq<Option<(string, string)>>)
    requires sep != ""
    ensures |ps| == |lines| && forall i :: 0 <= i < |lines| ==> ps[i] == KvPair(lines[i], sep)
  {
    seq(|lines|, i requires 0 <= i < |lines| => KvPair(lines[i], sep))
  }

  /** The dictionary the loop builds from the pairs in order, so a later
      key overwrites an earlier one. */
  function PairsMap(ps: seq<Option<(string, string)>>): map<string, string>
  {
    if ps == [] then map[]
    else
      var m := PairsMap(ps[..|ps| - 1]);
      var p := ps[|ps| - 1];
      if p.Some? then m[p.value.0 := p.value.1] else m
  }

  lemma {:induction false} PairsMapStep(ps: seq<Option<(string, string)>>, k: nat)
    requires k < |ps|
    ensures PairsMap(ps[..k + 1]) == if ps[k].Some? then PairsMap(ps[..k])[ps[k].value.0 := ps[k].value.1] else PairsMap(ps[..k])
  {
    assert ps[..k + 1][..k] == ps[..k];
  }

  const NoPairsMessage := "Could not find key-value pairs in the output"

  /** `KeyValueOutputParser(separator).parse(text)`. */
  function ParseKeyValuesText(text: string, sep: string): Result<map<string, string>, ChainError>
  {
    var lines := SplitOn(text, '\n');
    if sep == "" then
      if exists k :: 0 <= k < |lines| && KvCandidate(lines[k]) then Err(EmptySeparator)
      else Err(ParseError(NoPairsMessage))
    else
      var m := PairsMap(KvPairs(lines, sep));
      if m == map[] then Err(ParseError(NoPairsMessage)) else Ok(m)
  }

  method ParseKeyValues(text: string, sep: string) returns (r: Result<map<string, string>, ChainError>)
    ensures r == ParseKeyValuesText(text, sep)
  {
    var lines := SplitOn(text, '\n');
    var result: map<string, string> := map[];
    for k := 0 to |lines|
      invariant sep == "" ==> result == map[] && forall j :: 0 <= j < k ==> !KvCandidate(lines[j])
      invariant sep != "" ==> result == PairsMap(KvPairs(lines, sep)[..k])
    {
      var pair := LinePair(lines[k], sep);
      if pair.Err? {
        return Err(pair.error);
      }
      if sep != "" {
        KvPairsStep(lines, sep, k);
      }
      if pair.value.Some? {
        result := result[pair.value.value.0 := pair.value.value.1];
      }
    }
    if sep != "" {
      assert KvPairs(lines, sep)[..|lines|] == KvPairs(lines, sep);
    }
    if result == map[] {
      return Err(ParseError(NoPairsMessage));
    }
    return Ok(result);
  }

  /** The body of the parse loop for one line: nothing for a blank or '#'
      line, the stripped pair when the line splits, and the error of
      `split` with an empty separator otherwise. */
  method LinePair(raw: string, sep: string) returns (r: Result<Option<(string, string)>, ChainError>)
    ensures sep == "" ==> (r.Err? <==> KvCandidate(raw)) && (r.Err? ==> r.error == EmptySeparator)
    ensures sep == "" && r.Ok? ==> r.value.None?
    ensures sep != "" ==> r == Ok(KvPair(raw, sep))
  {
    var line := Strip(raw);
    if line == "" || line[0] == '#' {
      return Ok(None);
    }
    if sep == "" {
      return Err(EmptySeparator);
    }
    return Ok(SplitPair(line, sep));
  }

  /** One more line of the loop: the dictionary of the first `k + 1` lines. */
  lemma {:induction false} KvPairsStep(lines: seq<string>, sep: string, k: nat)
    requires sep != "" && k < |lines|
    ensures var p := KvPair(lines[k], sep);
      PairsMap(KvPairs(lines, sep)[..k + 1])
        == if p.Some? then PairsMap(KvPairs(lines, sep)[..k])[p.value.0 := p.value.1] else PairsMap(KvPairs(lines, sep)[..k])
  {
    PairsMapStep(KvPairs(lines, sep), k);
  }

  /** Every key of the dictionary comes from some pair. */
  lemma {:induction false} KeyFromPair(ps: seq<Option<(string, string)>>, key: string) returns (j: nat)
    requires key in PairsMap(ps)
    ensures j < |ps| && ps[j].Some? && ps[j].value.0 == key
    decreases |ps|
  {
    var init := ps[..|ps| - 1];
    var p := ps[|ps| - 1];
    if p.Some? && p.value.0 == key {
      j := |ps| - 1;
    } else {
      j := KeyFromPair(init, key);
    }
  }

  /** Every pair's key is in the dictionary. */
  lemma {:induction false} PairKeyKept(ps: seq<Option<(string, string)>>, j: nat)
    requires j < |ps| && ps[j].Some?
    ensures ps[j].value.0 in PairsMap(ps)
    decreases |ps|
  {
    var init := ps[..|ps| - 1];
    if j < |init| {
      PairKeyKept(init, j);
    }
  }

  /** A key is in the parsed dictionary exactly when some line gives it. */
  lemma {:induction false} KvKeys(lines: seq<string>, sep: string, key: string)
    requires sep != ""
    ensures key in PairsMap(KvPairs(lines, sep)) <==>
      exists j :: 0 <= j < |lines| && KvPair(lines[j], sep).Some? && KvPair(lines[j], sep).value.0 == key
  {
    var ps := KvPairs(lines, sep);
    if key in PairsMap(ps) {
      var j := KeyFromPair(ps, key);
      assert ps[j] == KvPair(lines[j], sep);
    }
    if exists j :: 0 <= j < |lines| && KvPair(lines[j], sep).Some? && KvPair(lines[j], sep).value.0 == key {
      var j :| 0 <= j < |lines| && KvPair(lines[j], sep).Some? && KvPair(lines[j], sep).value.0 == key;
      PairKeyKept(ps, j);
    }
  }

  /** A key's value is the one from the last pair that gives the key. */
  lemma {:induction false} LastPairWins(ps: seq<Option<(string, string)>>, j: nat)
    requires j < |ps| && ps[j].Some?
    requires forall i :: j < i < |ps| && ps[i].Some? ==> ps[i].value.0 != ps[j].value.0
    ensures ps[j].value.0 in PairsMap(ps) && PairsMap(ps)[ps[j].value.0] == ps[j].value.1
    decreases |ps|
  {
    var init := ps[..|ps| - 1];
    if j < |init| {
      LastPairWins(init, j);
    }
  }

  /** In the parsed dictionary a key has the value of the last line that
      gives it. */
  lemma {:induction false} KvLastWins(lines: seq<string>, sep: string, j: nat)
    requires sep != "" && j < |lines| && KvPair(lines[j], sep).Some?
    requires forall i :: j < i < |lines| && KvPair(lines[i], sep).Some? ==>
      KvPair(lines[i], sep).value.0 != KvPair(lines[j], sep).value.0
    ensures var p := KvPair(lines[j], sep).value;
      p.0 in PairsMap(KvPairs(lines, sep)) && PairsMap(KvPairs(lines, sep))[p.0] == p.1
  {
    LastPairWins(KvPairs(lines, sep), j);
  }

  function KvInstructions(sep: string): string
  {
    "Respond with key-value pairs, one per line, with keys and values separated by '" + sep + "'."
  }

  // ---------------------------------------------------------------------
  // JsonOutputParser
  // ---------------------------------------------------------------------

  const FenceOpen := "```json"
  const Fence := "```"

  /** `re.search(r'```json\s*([\s\S]*?)\s*```', text)`: after the first
      "```json" and the whitespace that follows it, the text up to the
      next "```" without the whitespace before it. A later "```json"
      cannot help when this one has no closing fence, since its own
      backquotes would close this one. */
  function FencedJson(text: string): (r: Option<string>)
  {
    match Find(text, FenceOpen)
    case None => None
    case Some(i) =>
      var a := i + |FenceOpen| + LeadingSpace(text[i + |FenceOpen|..]);
      match FindFrom(text, Fence, a)
      case None => None
      case Some(q) => Some(text[a..q - TrailingSpace(text[a..q])])
  }

  function LastIndexOf(s: string, c: char): (i: nat)
    requires c in s
    ensures i < |s| && s[i] == c && c !in s[i + 1..]
  {
    if s[|s| - 1] == c then |s| - 1 else LastIndexOf(s[..|s| - 1], c)
  }

  /** `re.search(r'(\{[\s\S]*\})', text)`: from the first '{' through the
      last '}', when that comes after it. */
  function BraceSpan(text: string): Option<string>
  {
    if '{' in text && '}' in text && IndexOf(text, '{') < LastIndexOf(text, '}')
    then Some(text[IndexOf(text, '{')..LastIndexOf(text, '}') + 1])
    else None
  }

  /** json.loads: the value, or the text of the JSONDecodeError. */
  type Loads = string -> Result<Json, string>

  /** `JsonOutputParser().parse(text)`: the fenced block, else the brace
      span, decoded. */
  function ParseJsonText(loads: Loads, text: string): (r: Result<Json, ChainError>)
    ensures FencedJson(text).None? && BraceSpan(text).None? ==> r == Err(ParseError("Could not find JSON in the output"))
  {
    var candidate := if FencedJson(text).Some? then FencedJson(text) else BraceSpan(text);
    if candidate.None? then Err(ParseError("Could not find JSON in the output"))
    else
      match loads(candidate.value)
      case Ok(v) => Ok(v)
      case Err(e) => Err(ParseError("Failed to parse JSON: " + e))
  }

  /** The reply the JSON format instructions ask for: the block inside a
      ```json fence, then anything. */
  function FencedReply(body: string, post: string): string
  {
    "```json\n" + body + "\n```" + post
  }

  /** The opening fence is found at the start and one newline follows it. */
  lemma {:induction false} FencedReplyOpens(body: string, post: string)
    requires CleanItem(body)
    ensures Find(FencedReply(body, post), FenceOpen) == Some(0)
    ensures LeadingSpace(FencedReply(body, post)[7..]) == 1
  {
    var text := FencedReply(body, post);
    assert OccursAt(text, FenceOpen, 0);
    var after := text[7..];
    assert after == "\n" + body + "\n```" + post;
    assert after[1..][0] == body[0];
  }

  /** The first closing fence after the opening one is the one after the
      block. */
  lemma {:induction false} FencedReplyCloses(body: string, post: string)
    requires CleanItem(body) && !Contains(body, Fence)
    ensures FindFrom(FencedReply(body, post), Fence, 8) == Some(8 + |body| + 1)
  {
    var text := FencedReply(body, post);
    var q := 8 + |body| + 1;
    assert |text| > q + 2;
    var head, tail := "```json\n" + body, "\n```" + post;
    assert text == head + tail && |head| == q - 1;
    assert text[8..q - 1] == body;
    assert text[q - 1] == tail[0] == '\n';
    assert text[q..q + 3] == tail[1..4] == Fence;
    forall j | 8 <= j < q
      ensures !OccursAt(text, Fence, j)
    {
      NoFenceBefore(text, body, 8, j);
    }
    assert OccursAt(text, Fence, q);
  }

  /** No fence starts inside a fence-free block or where it would take in
      the newline after it. */
  lemma {:induction false} NoFenceBefore(text: string, body: string, start: nat, j: nat)
    requires start + |body| < |text| && text[start..start + |body|] == body && text[start + |body|] == '\n'
    requires !Contains(body, Fence) && start <= j <= start + |body|
    ensures !OccursAt(text, Fence, j)
  {
    var nl := start + |body|;
    if j + 3 <= nl {
      var w, v := text[j..j + 3], body[j - start..j - start + 3];
      forall i | 0 <= i < 3
        ensures w[i] == v[i]
      {
        assert body[j - start + i] == text[start..start + |body|][j - start + i];
      }
      assert w == v;
      assert !OccursAt(body, Fence, j - start);
    } else if j + 3 <= |text| {
      assert text[j..j + 3][nl - j] == text[nl];
    }
  }

  /** A reply that opens with a ```json fence around a block with no
      fence and no surrounding whitespace gives back that block. */
  lemma {:induction false} FencedRoundTrip(body: string, post: string)
    requires CleanItem(body) && !Contains(body, Fence)
    ensures FencedJson(FencedReply(body, post)) == Some(body)
  {
    var text := FencedReply(body, post);
    FencedReplyOpens(body, post);
    FencedReplyCloses(body, post);
    var q := 8 + |body| + 1;
    var mid := text[8..q];
    assert mid == body + "\n";
    assert TrailingSpace(mid) == 1 by {
      assert mid[|mid| - 2] == body[|body| - 1];
    }
    assert text[8..q - 1] == body;
  }

  /** A reply in the shape the JSON format instructions ask for parses to
      what json.loads makes of the block, error or value. */
  lemma {:induction false} JsonReplyParses(loads: Loads, body: string, post: string)
    requires CleanItem(body) && !Contains(body, Fence)
    ensures loads(body).Ok? ==> ParseJsonText(loads, FencedReply(body, post)) == Ok(loads(body).value)
    ensures loads(body).Err? ==>
      ParseJsonText(loads, FencedReply(body, post)) == Err(ParseError("Failed to parse JSON: " + loads(body).error))
  {
    FencedRoundTrip(body, post);
  }

  /** What a schema's "properties" entry says about one property:
      `details.get("type", "string")` and `details.get("description", "")`. */
  datatype SchemaProperty = SchemaProperty(name: string, propType: Option<string>, description: Option<string>)

  function PropertyLine(p: SchemaProperty): string
  {
    var t := if p.propType.Some? then p.propType.value else "string";
    var d := if p.description.Some? then p.description.value else "";
    "  \"" + p.name + "\": {\"type\": \"" + t + "\"}  // " + d + "\n"
  }

  function PropertyLines(ps: seq<SchemaProperty>): string
  {
    if ps == [] then "" else PropertyLines(ps[..|ps| - 1]) + PropertyLine(ps[|ps| - 1])
  }

  const JsonInstructionsHead := "Respond with a JSON object in the following format:\n\n```json\n{\n"
  const JsonInstructionsExample := "  \"key1\": \"value1\",\n  \"key2\": \"value2\"\n"
  const JsonInstructionsTail := "}\n```"

  /** The output parsers. A JSON parser's schema is kept as its
      "properties" entries in order, or None when the schema is absent,
      empty or has no "properties". */
  datatype OutputParser =
    | JsonOutput(properties: Option<seq<SchemaProperty>>)
    | ListOutput
    | KeyValueOutput(separator: string)

  /** `get_format_instructions()`. */
  function FormatInstructions(p: OutputParser): (r: string)
    ensures p.JsonOutput? ==> StartsWith(r, JsonInstructionsHead) && EndsWith(r, JsonInstructionsTail)
  {
    match p
    case JsonOutput(props) =>
      JsonInstructionsHead + (if props.Some? then PropertyLines(props.value) else JsonInstructionsExample) + JsonInstructionsTail
    case ListOutput => ListInstructions
    case KeyValueOutput(sep) => KvInstructions(sep)
  }

  /** `parse(text)` of each parser; a list or key-value result is
      wrapped as JSON. */
  function Parse(p: OutputParser, loads: Loads, text: string): Result<Json, ChainError>
  {
    match p
    case JsonOutput(_) => ParseJsonText(loads, text)
    case ListOutput =>
      var r := ParseListText(text);
      if r.Ok? then Ok(JList(MapSeq((s: string) => JStr(s), r.value))) else Err(r.error)
    case KeyValueOutput(sep) =>
      var r := ParseKeyValuesText(text, sep);
      if r.Ok? then Ok(JObj(map k | k in r.value :: JStr(r.value[k]))) else Err(r.error)
  }

  // ---------------------------------------------------------------------
  // PromptTemplate and str.format
  // ---------------------------------------------------------------------

  function Prepend(s: string, r: Result<string, ChainError>): (q: Result<string, ChainError>)
    ensures q.Ok? <==> r.Ok?
    ensures r.Ok? ==> q.value == s + r.value
    ensures r.Err? ==> q == r
  {
    if r.Ok? then Ok(s + r.value) else r
  }

  predicate AllDigits(s: string)
  {
    forall i :: 0 <= i < |s| ==> IsDigit(s[i])
  }

  /** What a replacement field does: an empty or numeric name is
      positional, a name followed by '.', '[', '!' or ':' is not
      modelled, anything else is looked up among the keyword arguments. */
  function FieldValue(field: string, kwargs: map<string, string>): Result<string, ChainError>
  {
    if field == "" || AllDigits(field) then Err(PositionalField)
    else if '.' in field || '[' in field || '!' in field || ':' in field then Err(UnsupportedField(field))
    else if field in kwargs then Ok(kwargs[field])
    else Err(MissingKey(field))
  }

  /** `template.format(**kwargs)` with string values: "{{" and "}}" stand
      for braces, "{name}" for the argument, and the first problem from
      the left is raised. */
  function StrFormat(t: string, kwargs: map<string, string>): Result<string, ChainError>
    decreases |t|, 1
  {
    if t == "" then Ok("")
    else if |t| >= 2 && t[0] == t[1] && (t[0] == '{' || t[0] == '}') then Prepend([t[0]], StrFormat(t[2..], kwargs))
    else if t[0] == '{' then FormatField(t[1..], kwargs)
    else if t[0] == '}' then Err(MalformedTemplate)
    else Prepend([t[0]], StrFormat(t[1..], kwargs))
  }

  /** A replacement field: u is what follows its '{'. */
  function FormatField(u: string, kwargs: map<string, string>): Result<string, ChainError>
    decreases |u|, 0
  {
    if '}' !in u then Err(MalformedTemplate)
    else
      var j := IndexOf(u, '}');
      var field := u[..j];
      if '{' in field then Err(MalformedTemplate)
      else
        var v := FieldValue(field, kwargs);
        if v.Err? then v else Prepend(v.value, StrFormat(u[j + 1..], kwargs))
  }

  /** A doubled brace stands for one brace. */
  lemma {:induction false} FormatDoubled(c: char, t: string, kwargs: map<string, string>)
    requires c == '{' || c == '}'
    ensures StrFormat([c, c] + t, kwargs) == Prepend([c], StrFormat(t, kwargs))
  {
    assert ([c, c] + t)[2..] == t;
  }

  /** Any other character stands for itself. */
  lemma {:induction false} FormatPlain(c: char, t: string, kwargs: map<string, string>)
    requires c != '{' && c != '}'
    ensures StrFormat([c] + t, kwargs) == Prepend([c], StrFormat(t, kwargs))
  {
    assert ([c] + t)[1..] == t;
  }

  datatype PromptTemplate = PromptTemplate(template: string, inputVariables: seq<string>)

  /** The declared variables that are not among the arguments. */
  function Missing(pt: PromptTemplate, kwargs: map<string, string>): (m: set<string>)
    ensures forall v :: v in m <==> v in pt.inputVariables && v !in kwargs
  {
    set v | v in pt.inputVariables && v !in kwargs
  }

  /** `PromptTemplate.format(**kwargs)`. The KeyError lists the missing
      variables in set order; the model keeps the set. */
  function Format(pt: PromptTemplate, kwargs: map<string, string>): (r: Result<string, ChainError>)
    ensures (r.Err? && r.error.MissingVariables?) <==> exists v :: v in pt.inputVariables && v !in kwargs
    ensures r.Err? && r.error.MissingVariables? ==> r.error.names == Missing(pt, kwargs)
  {
    var missing := Missing(pt, kwargs);
    if missing != {} then Err(MissingVariables(missing))
    else
      assert forall v :: v in pt.inputVariables ==> v in kwargs;
      var r := StrFormat(pt.template, kwargs);
      StrFormatNeverMissingVariables(pt.template, kwargs);
      r
  }

  lemma {:induction false} StrFormatNeverMissingVariables(t: string, kwargs: map<string, string>)
    ensures !(StrFormat(t, kwargs).Err? && StrFormat(t, kwargs).error.MissingVariables?)
    decreases |t|
  {
    if t != "" {
      if |t| >= 2 && t[0] == t[1] && (t[0] == '{' || t[0] == '}') {
        StrFormatNeverMissingVariables(t[2..], kwargs);
      } else if t[0] == '{' {
        var u := t[1..];
        if '}' in u {
          StrFormatNeverMissingVariables(u[IndexOf(u, '}') + 1..], kwargs);
        }
      } else if t[0] != '}' {
        StrFormatNeverMissingVariables(t[1..], kwargs);
      }
    }
  }

  /** A KeyError from formatting names a field that has no argument. */
  lemma {:induction false} MissingKeyHasNoArgument(t: string, kwargs: map<string, string>)
    requires StrFormat(t, kwargs).Err? && StrFormat(t, kwargs).error.MissingKey?
    ensures StrFormat(t, kwargs).error.name !in kwargs
    decreases |t|
  {
    if |t| >= 2 && t[0] == t[1] && (t[0] == '{' || t[0] == '}') {
      MissingKeyHasNoArgument(t[2..], kwargs);
    } else if t[0] == '{' {
      var u := t[1..];
      var j := IndexOf(u, '}');
      if FieldValue(u[..j], kwargs).Ok? {
        MissingKeyHasNoArgument(u[j + 1..], kwargs);
      }
    } else {
      MissingKeyHasNoArgument(t[1..], kwargs);
    }
  }

  /** Text with its braces doubled, so that formatting shows it as is. */
  function Escape(s: string): (r: string)
  {
    if s == "" then ""
    else if s[0] == '{' then "{{" + Escape(s[1..])
    else if s[0] == '}' then "}}" + Escape(s[1..])
    else [s[0]] + Escape(s[1..])
  }

  /** Formatting an escaped prefix yields the prefix and then the rest's
      result. */
  lemma {:induction false} EscapedPrefix(s: string, rest: string, kwargs: map<string, string>)
    ensures StrFormat(Escape(s) + rest, kwargs) == Prepend(s, StrFormat(rest, kwargs))
    decreases |s|
  {
    if s == "" {
      EscapedNothing(rest, kwargs);
    } else {
      EscapedPrefix(s[1..], rest, kwargs);
      EscapedStep(s, rest, kwargs);
    }
  }

  lemma {:induction false} EscapedNothing(rest: string, kwargs: map<string, string>)
    ensures StrFormat(Escape("") + rest, kwargs) == Prepend("", StrFormat(rest, kwargs))
  {
    assert Escape("") + rest == rest;
    if StrFormat(rest, kwargs).Ok? {
      assert "" + StrFormat(rest, kwargs).value == StrFormat(rest, kwargs).value;
    }
  }

  /** One character more of escaped prefix is one character more in front. */
  lemma {:induction false} EscapedStep(s: string, rest: string, kwargs: map<string, string>)
    requires s != ""
    requires StrFormat(Escape(s[1..]) + rest, kwargs) == Prepend(s[1..], StrFormat(rest, kwargs))
    ensures StrFormat(Escape(s) + rest, kwargs) == Prepend(s, StrFormat(rest, kwargs))
  {
    var c := s[0];
    var e := Escape(s[1..]) + rest;
    assert StrFormat(Escape(s) + rest, kwargs) == Prepend([c], StrFormat(e, kwargs)) by {
      EscapedChar(s, rest, kwargs);
    }
    assert Prepend([c], Prepend(s[1..], StrFormat(rest, kwargs))) == Prepend(s, StrFormat(rest, kwargs)) by {
      PrependTwice([c], s[1..], StrFormat(rest, kwargs));
      assert [c] + s[1..] == s;
    }
  }

  /** The escaped first character formats back to that character. */
  lemma {:induction false} EscapedChar(s: string, rest: string, kwargs: map<string, string>)
    requires s != ""
    ensures StrFormat(Escape(s) + rest, kwargs) == Prepend([s[0]], StrFormat(Escape(s[1..]) + rest, kwargs))
  {
    var c := s[0];
    var e := Escape(s[1..]) + rest;
    if c == '{' || c == '}' {
      assert Escape(s) + rest == [c, c] + e;
      FormatDoubled(c, e, kwargs);
    } else {
      assert Escape(s) + rest == [c] + e;
      FormatPlain(c, e, kwargs);
    }
  }

  lemma {:induction false} PrependTwice(a: string, b: string, r: Result<string, ChainError>)
    ensures Prepend(a, Prepend(b, r)) == Prepend(a + b, r)
  {
    if r.Ok? {
      assert a + (b + r.value) == (a + b) + r.value;
    }
  }

  /** Escaping is undone by formatting, whatever the arguments. */
  lemma {:induction false} EscapeRoundTrip(s: string, kwargs: map<string, string>)
    ensures StrFormat(Escape(s), kwargs) == Ok(s)
  {
    EscapedPrefix(s, "", kwargs);
    assert Escape(s) + "" == Escape(s);
    assert s + "" == s;
  }

  /** A field name the model looks up as is: not positional and without
      braces, attribute, index, conversion or format spec. */
  predicate PlainName(name: string)
  {
    && name != "" && !AllDigits(name)
    && '{' !in name && '}' !in name && '.' !in name && '[' !in name && '!' !in name && ':' !in name
  }

  /** A plain field name with an argument is replaced by its value. */
  lemma {:induction false} FieldReplaced(name: string, rest: string, kwargs: map<string, string>)
    requires PlainName(name) && name in kwargs
    ensures StrFormat("{" + name + "}" + rest, kwargs) == Prepend(kwargs[name], StrFormat(rest, kwargs))
  {
    var t := "{" + name + "}" + rest;
    var u := name + "}" + rest;
    assert t == "{" + u && t[1..] == u;
    assert u[|name|] == '}' && u[..|name|] == name;
    assert IndexOf(u, '}') == |name|;
    assert u[|name| + 1..] == rest;
    assert t[0] != t[1];
    assert FieldValue(name, kwargs) == Ok(kwargs[name]);
  }

  /** A template with one escaped text, one declared field and another
      escaped text formats to the texts around the argument. */
  lemma {:induction false} TemplateFilled(before: string, name: string, after: string, kwargs: map<string, string>)
    requires PlainName(name) && name in kwargs
    ensures Format(PromptTemplate(Escape(before) + "{" + name + "}" + Escape(after), [name]), kwargs)
      == Ok(before + kwargs[name] + after)
  {
    var t := Escape(before) + "{" + name + "}" + Escape(after);
    var tail := "{" + name + "}" + Escape(after);
    var v := kwargs[name] + after;
    assert t == Escape(before) + tail;
    assert Format(PromptTemplate(t, [name]), kwargs) == StrFormat(t, kwargs) by {
      FormatWithAllArguments(PromptTemplate(t, [name]), kwargs);
    }
    assert StrFormat(t, kwargs) == Ok(before + v) by {
      FieldThenEscaped(name, after, kwargs);
      EscapedThenFormatted(before, tail, kwargs, v);
    }
    assert before + v == before + kwargs[name] + after;
  }

  /** Escaped text in front of a template that formats to v formats to
      the text and then v. */
  lemma {:induction false} EscapedThenFormatted(s: string, rest: string, kwargs: map<string, string>, v: string)
    requires StrFormat(rest, kwargs) == Ok(v)
    ensures StrFormat(Escape(s) + rest, kwargs) == Ok(s + v)
  {
    EscapedPrefix(s, rest, kwargs);
  }

  /** With every declared variable given, formatting is str.format. */
  lemma {:induction false} FormatWithAllArguments(pt: PromptTemplate, kwargs: map<string, string>)
    requires forall v :: v in pt.inputVariables ==> v in kwargs
    ensures Format(pt, kwargs) == StrFormat(pt.template, kwargs)
  {
    assert Missing(pt, kwargs) == {};
  }

  /** A field and then escaped text format to the argument and the text. */
  lemma {:induction false} FieldThenEscaped(name: string, after: string, kwargs: map<string, string>)
    requires PlainName(name) && name in kwargs
    ensures StrFormat("{" + name + "}" + Escape(after), kwargs) == Ok(kwargs[name] + after)
  {
    FieldReplaced(name, Escape(after), kwargs);
    EscapeRoundTrip(after, kwargs);
  }

  // ---------------------------------------------------------------------
  // ChainMetrics
  // ---------------------------------------------------------------------

  /** `sum(xs)`. */
  function Sum(xs: seq<int>): int
  {
    if xs == [] then 0 else Sum(xs[..|xs| - 1]) + xs[|xs| - 1]
  }

  /** The sum over every list of the dictionary; the order in which
      Python visits the keys does not change it (SumAllRemove). */
  ghost function SumAll(m: map<string, seq<int>>): int
    decreases |m.Keys|
  {
    if m == map[] then 0
    else
      var k :| k in m;
      Sum(m[k]) + SumAll(m - {k})
  }

  /** Any key may be taken out first. */
  lemma {:induction false} SumAllRemove(m: map<string, seq<int>>, k: string)
    requires k in m
    ensures SumAll(m) == Sum(m[k]) + SumAll(m - {k})
    decreases |m.Keys|
  {
    var j :| j in m && SumAll(m) == Sum(m[j]) + SumAll(m - {j});
    if j != k {
      SumAllRemove(m - {j}, k);
      SumAllRemove(m - {k}, j);
      assert (m - {j}) - {k} == (m - {k}) - {j};
    }
  }

  /** The list under k with x appended, a new list when k is new. */
  function Recorded(m: map<string, seq<int>>, k: string, x: int): map<string, seq<int>>
  {
    m[k := (if k in m then m[k] else []) + [x]]
  }

  /** Recording x adds exactly x to the total. */
  lemma {:induction false} RecordedSum(m: map<string, seq<int>>, k: string, x: int)
    ensures SumAll(Recorded(m, k, x)) == SumAll(m) + x
  {
    var r := Recorded(m, k, x);
    SumAllRemove(r, k);
    var old_ := if k in m then m[k] else [];
    assert r[k][..|r[k]| - 1] == old_;
    if k in m {
      SumAllRemove(m, k);
      assert r - {k} == m - {k};
    } else {
      assert r - {k} == m;
    }
  }

  function CountOf(names: seq<string>, name: string): nat
  {
    if names == [] then 0
    else CountOf(names[..|names| - 1], name) + (if names[|names| - 1] == name then 1 else 0)
  }

  function CallCounts(m: map<string, seq<int>>): (r: map<string, nat>)
    ensures r.Keys == m.Keys && forall k :: k in m ==> r[k] == |m[k]|
  {
    map k | k in m :: |m[k]|
  }

  /** Each step's list of times is as long as the step was ended often. */
  ghost predicate CountsMatch(times: map<string, seq<int>>, ended: seq<string>)
  {
    && (forall name :: name in times ==> |times[name]| == CountOf(ended, name))
    && (forall name :: name !in times ==> CountOf(ended, name) == 0)
  }

  /** Ending a step once more and recording its time keeps the counts. */
  lemma {:induction false} CountsMatchRecorded(times: map<string, seq<int>>, ended: seq<string>, step: string, x: int)
    requires CountsMatch(times, ended)
    ensures CountsMatch(Recorded(times, step, x), ended + [step])
  {
    var e := ended + [step];
    assert e[..|e| - 1] == ended;
  }

  /** The tracker's invariant: counts match the ended steps and the token
      lists add up to the recorded counts. */
  ghost predicate MetricsAgree(times: map<string, seq<int>>, tokens: map<string, seq<int>>,
                               ended: seq<string>, recorded: seq<int>)
  {
    CountsMatch(times, ended) && SumAll(tokens) == Sum(recorded)
  }

  /** Ending a step, with or without a token count, keeps the invariant. */
  lemma {:induction false} MetricsEnded(times: map<string, seq<int>>, tokens: map<string, seq<int>>,
                     ended: seq<string>, recorded: seq<int>, step: string, elapsed: int, tokenCount: Option<int>)
    requires MetricsAgree(times, tokens, ended, recorded)
    ensures MetricsAgree(Recorded(times, step, elapsed),
                         if tokenCount.Some? then Recorded(tokens, step, tokenCount.value) else tokens,
                         ended + [step],
                         recorded + (if tokenCount.Some? then [tokenCount.value] else []))
  {
    CountsMatchRecorded(times, ended, step, elapsed);
    if tokenCount.Some? {
      RecordedSum(tokens, step, tokenCount.value);
      var r := recorded + [tokenCount.value];
      assert r[..|r| - 1] == recorded;
    } else {
      assert recorded + [] == recorded;
    }
  }

  datatype MetricsSummary = MetricsSummary(totalTime: int, totalTokens: int, callCounts: map<string, nat>)

  /** The tracker. Times are whole clock ticks read from `now`; the
      ghost fields record every ended step and every recorded token count
      in order, which is what the summaries are checked against. */
  class ChainMetrics {
    var stepTimes: map<string, seq<int>>
    var stepTokenCounts: map<string, seq<int>>
    var currentStep: Option<string>
    var stepStartTime: Option<int>
    ghost var ended: seq<string>
    ghost var tokensRecorded: seq<int>

    /** Each step's call count is the number of times it was ended, and
        the token total is the sum of the recorded counts. */
    ghost predicate Valid()
      reads this
    {
      MetricsAgree(stepTimes, stepTokenCounts, ended, tokensRecorded)
    }

    constructor()
      ensures Valid()
      ensures stepTimes == map[] && stepTokenCounts == map[]
      ensures currentStep.None? && stepStartTime.None?
      ensures ended == [] && tokensRecorded == []
    {
      stepTimes := map[];
      stepTokenCounts := map[];
      currentStep := None;
      stepStartTime := None;
      ended := [];
      tokensRecorded := [];
    }

    method StartStep(stepName: string, now: int)
      modifies this
      ensures currentStep == Some(stepName) && stepStartTime == Some(now)
      ensures stepTimes == old(stepTimes) && stepTokenCounts == old(stepTokenCounts)
      ensures ended == old(ended) && tokensRecorded == old(tokensRecorded)
    {
      currentStep := Some(stepName);
      stepStartTime := Some(now);
    }

    /** With no open step nothing happens; otherwise the step's time and
        the token count, when given, are recorded and the step is closed. */
    method EndStep(tokenCount: Option<int>, now: int)
      requires Valid()
      modifies this
      ensures Valid()
      ensures old(currentStep).None? || old(stepStartTime).None? ==>
        && stepTimes == old(stepTimes) && stepTokenCounts == old(stepTokenCounts)
        && currentStep == old(currentStep) && stepStartTime == old(stepStartTime)
        && ended == old(ended) && tokensRecorded == old(tokensRecorded)
      ensures old(currentStep).Some? && old(stepStartTime).Some? ==>
        && stepTimes == Recorded(old(stepTimes), old(currentStep).value, now - old(stepStartTime).value)
        && stepTokenCounts == (if tokenCount.Some? then Recorded(old(stepTokenCounts), old(currentStep).value, tokenCount.value)
                               else old(stepTokenCounts))
        && currentStep.None? && stepStartTime.None?
        && ended == old(ended) + [old(currentStep).value]
        && tokensRecorded == old(tokensRecorded) + (if tokenCount.Some? then [tokenCount.value] else [])
    {
      if currentStep.None? || stepStartTime.None? {
        return;
      }
      var step := currentStep.value;
      var elapsed := now - stepStartTime.value;
      var tokens := if tokenCount.Some? then Recorded(stepTokenCounts, step, tokenCount.value) else stepTokenCounts;
      ghost var recorded := tokensRecorded + (if tokenCount.Some? then [tokenCount.value] else []);
      MetricsEnded(stepTimes, stepTokenCounts, ended, tokensRecorded, step, elapsed, tokenCount);
      stepTimes := Recorded(stepTimes, step, elapsed);
      stepTokenCounts := tokens;
      ended := ended + [step];
      tokensRecorded := recorded;
      currentStep := None;
      stepStartTime := None;
    }

    /** The number of times a step was ended. */
    function CallCount(stepName: string): nat
      reads this
    {
      if stepName in stepTimes then |stepTimes[stepName]| else 0
    }

    lemma {:induction false} CallCountIsEndCount(stepName: string)
      requires Valid()
      ensures CallCount(stepName) == CountOf(ended, stepName)
    {
    }

    /** `sum(sum(xs) for xs in m.values())`, one key at a time. */
    static method SumValues(m: map<string, seq<int>>) returns (total: int)
      ensures total == SumAll(m)
    {
      total := 0;
      var rest := m;
      while rest != map[]
        invariant total + SumAll(rest) == SumAll(m)
        decreases |rest.Keys|
      {
        var k :| k in rest;
        SumAllRemove(rest, k);
        total := total + Sum(rest[k]);
        rest := rest - {k};
      }
    }

    method GetTotalTokens() returns (total: int)
      requires Valid()
      ensures total == Sum(tokensRecorded)
    {
      total := SumValues(stepTokenCounts);
    }

    method GetTotalTime() returns (total: int)
      ensures total == SumAll(stepTimes)
    {
      total := SumValues(stepTimes);
    }

    /** `get_summary()`: the totals and each step's call count. */
    method GetSummary() returns (s: MetricsSummary)
      requires Valid()
      ensures s.totalTime == SumAll(stepTimes) && s.totalTokens == Sum(tokensRecorded)
      ensures s.callCounts.Keys == stepTimes.Keys
      ensures forall name :: name in s.callCounts ==> s.callCounts[name] == CountOf(ended, name)
    {
      var totalTime := GetTotalTime();
      var totalTokens := GetTotalTokens();
      var steps: map<string, nat> := map[];
      var rest := stepTimes.Keys;
      while rest != {}
        invariant rest <= stepTimes.Keys
        invariant steps.Keys == stepTimes.Keys - rest
        invariant forall name :: name in steps ==> steps[name] == |stepTimes[name]|
        decreases |rest|
      {
        var name :| name in rest;
        steps := steps[name := |stepTimes[name]|];
        rest := rest - {name};
      }
      s := MetricsSummary(totalTime, totalTokens, steps);
    }
  }

  /** Ending a step that was started adds one to its call count and
      leaves every other step's count alone. */
  lemma {:induction false} RecordedCounts(m: map<string, seq<int>>, k: string, x: int, other: string)
    ensures var r := Recorded(m, k, x);
      && (other in r <==> other in m || other == k)
      && (other == k ==> |r[other]| == (if k in m then |m[k]| else 0) + 1)
      && (other != k && other in m ==> r[other] == m[other])
  {
  }

  // ---------------------------------------------------------------------
  // create_chain_step
  // ---------------------------------------------------------------------

  datatype ChainStep = ChainStep(
    name: string,
    systemPrompt: string,
    userPromptTemplate: string,
    outputKey: string,
    temperature: real,
    maxTokens: int,
    outputParser: Option<OutputParser>)

  /** `create_chain_step`: with a parser, its format instructions follow
      the system prompt after a blank line and the parser is kept. */
  function CreateChainStep(name: string, systemPrompt: string, userPromptTemplate: string, outputKey: string,
                           outputParser: Option<OutputParser>, temperature: real, maxTokens: int): (s: ChainStep)
    ensures s.name == name && s.userPromptTemplate == userPromptTemplate && s.outputKey == outputKey
    ensures s.temperature == temperature && s.maxTokens == maxTokens && s.outputParser == outputParser
    ensures outputParser.None? ==> s.systemPrompt == systemPrompt
    ensures outputParser.Some? ==>
      && StartsWith(s.systemPrompt, systemPrompt + "\n\n")
      && s.systemPrompt[|systemPrompt| + 2..] == FormatInstructions(outputParser.value)
  {
    var prompt := if outputParser.Some? then systemPrompt + "\n\n" + FormatInstructions(outputParser.value) else systemPrompt;
    ChainStep(name, prompt, userPromptTemplate, outputKey, temperature, maxTokens, outputParser)
  }
}
