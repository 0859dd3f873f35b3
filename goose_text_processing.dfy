/** Goose Tools' text helpers (goose_tools/utils/text_processing.py):
    whitespace-collapsing summaries cut at a sentence end, sections of a
    markdown document by heading, fenced code blocks and markdown links.
    The regular expressions are written out as scanners over the text. */
module GooseTextProcessing {
  import opened Base

  // ---------------------------------------------------------------------
  // summarize_text
  // ---------------------------------------------------------------------

  /** `re.sub(r'\s+', ' ', s)`: every run of whitespace becomes one space. */
  function Collapse(s: string): (r: string)
    ensures |r| <= |s|
    ensures r != [] <==> s != []
    ensures r != [] ==> (IsSpace(r[0]) <==> IsSpace(s[0]))
    ensures forall i :: 0 <= i < |r| && IsSpace(r[i]) ==> r[i] == ' '
    ensures forall i :: 0 <= i < |r| - 1 && IsSpace(r[i]) ==> !IsSpace(r[i + 1])
    decreases |s|
  {
    if s == [] then []
    else if IsSpace(s[0]) then " " + Collapse(s[LeadingSpace(s)..])
    else [s[0]] + Collapse(s[1..])
  }

  /** Collapsing twice is collapsing once. */
  lemma {:induction false} CollapseIdempotent(s: string)
    ensures Collapse(Collapse(s)) == Collapse(s)
    decreases |s|
  {
    if s != [] {
      var c := Collapse(s);
      if IsSpace(s[0]) {
        var rest := Collapse(s[LeadingSpace(s)..]);
        CollapseIdempotent(s[LeadingSpace(s)..]);
        assert c == " " + rest;
        assert LeadingSpace(c) == 1;
        assert c[1..] == rest;
      } else {
        CollapseIdempotent(s[1..]);
        assert c[1..] == Collapse(s[1..]);
      }
    }
  }

  /** The text summarize_text works on: whitespace collapsed, then stripped. */
  function Normalize(text: string): string
  {
    Strip(Collapse(text))
  }

  predicate IsEnd(c: char)
  {
    c == '.' || c == '!' || c == '?'
  }

  /** A sentence end at i that does not follow another one. */
  predicate LoneEnd(t: string, i: int)
    requires 1 <= i < |t|
  {
    IsEnd(t[i]) && !IsEnd(t[i - 1])
  }

  /** The largest c with lo < c <= hi at which a lone sentence end stands. */
  function LastLoneEnd(t: string, hi: int, lo: int): (r: Option<nat>)
    requires lo >= 0 && hi < |t|
    ensures r.Some? ==> lo < r.value <= hi && LoneEnd(t, r.value)
    ensures r.Some? ==> forall j :: r.value < j <= hi ==> !LoneEnd(t, j)
    ensures r.None? ==> forall j :: lo < j <= hi ==> !LoneEnd(t, j)
    decreases hi - lo
  {
    if hi <= lo then None
    else if LoneEnd(t, hi) then Some(hi)
    else LastLoneEnd(t, hi - 1, lo)
  }

  /** `summarize_text`: the normalised text when it fits; otherwise the text
      up to and including the last lone sentence end in the upper half of
      the limit, else the first max_length characters, followed by "...".
      A negative limit never enters the search and slices from the end
      (Dafny's `/` by 2 rounds down like Python's `//`). */
  function Summarize(text: string, maxLength: int): (r: string)
  {
    Cut(Normalize(text), maxLength)
  }

  /** The cut summarize_text makes in normalised text t. */
  function Cut(t: string, maxLength: int): (r: string)
  {
    if |t| <= maxLength then t
    else if maxLength < 0 then PyTake(t, maxLength) + "..."
    else match LastLoneEnd(t, maxLength, maxLength / 2)
      case Some(c) => t[..c + 1] + "..."
      case None => t[..maxLength] + "..."
  }

  /** The summary is the normalised text when that fits, and otherwise a
      prefix of it that ends at the last lone sentence end past half the
      limit (or at the limit when there is none), followed by "...". It is
      at most four characters over the limit. */
  lemma {:induction false} SummarizeShape(text: string, maxLength: int)
    requires maxLength >= 0
    ensures var t := Normalize(text); var r := Summarize(text, maxLength);
      && |r| <= maxLength + 4
      && (|t| <= maxLength ==> r == t)
      && (|t| > maxLength ==>
            (exists k :: maxLength / 2 + 1 < k <= maxLength + 1 && r == t[..k] + "..." && LoneEnd(t, k - 1)
              && (forall j :: k - 1 < j <= maxLength ==> !LoneEnd(t, j)))
            || (r == t[..maxLength] + "..." && forall j :: maxLength / 2 < j <= maxLength ==> !LoneEnd(t, j)))
  {
    CutShape(Normalize(text), maxLength);
  }

  lemma {:induction false} CutShape(t: string, maxLength: int)
    requires maxLength >= 0
    ensures var r := Cut(t, maxLength);
      && |r| <= maxLength + 4
      && (|t| <= maxLength ==> r == t)
      && (|t| > maxLength ==>
            (exists k :: maxLength / 2 + 1 < k <= maxLength + 1 && r == t[..k] + "..." && LoneEnd(t, k - 1)
              && (forall j :: k - 1 < j <= maxLength ==> !LoneEnd(t, j)))
            || (r == t[..maxLength] + "..." && forall j :: maxLength / 2 < j <= maxLength ==> !LoneEnd(t, j)))
  {
    if |t| > maxLength {
      var c := LastLoneEnd(t, maxLength, maxLength / 2);
      if c.Some? {
        assert Cut(t, maxLength) == t[..c.value + 1] + "...";
      }
    }
  }

  /** The loop of `summarize_text`, walking the cutoff down from max_length
      while it stays above max_length // 2. */
  method SummarizeText(text: string, maxLength: int) returns (r: string)
    ensures r == Summarize(text, maxLength)
  {
    var t := Normalize(text);
    r := CutLoop(t, maxLength);
  }

  method CutLoop(t: string, maxLength: int) returns (r: string)
    ensures r == Cut(t, maxLength)
  {
    if |t| <= maxLength {
      return t;
    }
    var lo := maxLength / 2;
    var cutoff := maxLength;
    while cutoff > lo
      invariant cutoff <= maxLength
      invariant maxLength < 0 ==> cutoff <= lo
      invariant maxLength >= 0 ==> LastLoneEnd(t, cutoff, lo) == LastLoneEnd(t, maxLength, lo)
      decreases cutoff
    {
      if IsEnd(t[cutoff]) && !IsEnd(t[cutoff - 1]) {
        return t[..cutoff + 1] + "...";
      }
      cutoff := cutoff - 1;
    }
    return PyTake(t, maxLength) + "...";
  }

  // ---------------------------------------------------------------------
  // extract_sections (with the default heading pattern)
  // ---------------------------------------------------------------------

  const Default: string := "default"

  /** The number of leading '#' characters. */
  function HashRun(s: string): (n: nat)
    ensures n <= |s|
    ensures forall i :: 0 <= i < n ==> s[i] == '#'
    ensures n < |s| ==> s[n] != '#'
  {
    if s == [] || s[0] != '#' then 0 else 1 + HashRun(s[1..])
  }

  /** `re.match(r'^#{1,6}\s+(.*?)$', line)` on a line without '\n': one to
      six '#' then whitespace; the stripped rest is the section name. */
  function Heading(line: string): (r: Option<string>)
    ensures r.Some? ==> 1 <= HashRun(line) <= 6
  {
    var k := HashRun(line);
    if 1 <= k <= 6 && k < |line| && IsSpace(line[k]) then Some(Strip(line[k..])) else None
  }

  /** The loop state: the sections saved so far, the current section's name
      and its lines. */
  datatype Acc = Acc(sections: map<string, string>, current: string, content: seq<string>)

  const Start: Acc := Acc(map[], Default, [])

  /** The current section saved, when it has lines. */
  function Close(a: Acc): map<string, string>
  {
    if a.content != [] then a.sections[a.current := Strip(Join(a.content, "\n"))] else a.sections
  }

  /** One line: a heading saves the current section and starts a new one;
      any other line joins the current section. */
  function Feed(a: Acc, line: string): Acc
  {
    match Heading(line)
    case Some(name) => Acc(Close(a), name, [])
    case None => a.(content := a.content + [line])
  }

  function FeedAll(a: Acc, lines: seq<string>): Acc
  {
    if lines == [] then a else Feed(FeedAll(a, lines[..|lines| - 1]), lines[|lines| - 1])
  }

  /** The sections of a document given as its lines. */
  function Sections(lines: seq<string>): map<string, string>
  {
    Close(FeedAll(Start, lines))
  }

  /** `extract_sections(text)`. */
  function ExtractSections(text: string): map<string, string>
  {
    Sections(SplitOn(text, '\n'))
  }

  /** The loop of `extract_sections`. */
  method ExtractSectionsLoop(text: string) returns (sections: map<string, string>)
    ensures sections == ExtractSections(text)
  {
    var lines := SplitOn(text, '\n');
    sections := map[];
    var currentSection := Default;
    var currentContent: seq<string> := [];
    for k := 0 to |lines|
      invariant FeedAll(Start, lines[..k]) == Acc(sections, currentSection, currentContent)
    {
      assert lines[..k + 1][..k] == lines[..k];
      var heading := Heading(lines[k]);
      if heading.Some? {
        if currentContent != [] {
          sections := sections[currentSection := Strip(Join(currentContent, "\n"))];
          currentContent := [];
        }
        currentSection := heading.value;
      } else {
        currentContent := currentContent + [lines[k]];
      }
    }
    assert lines[..|lines|] == lines;
    if currentContent != [] {
      sections := sections[currentSection := Strip(Join(currentContent, "\n"))];
    }
  }

  /** The name of the last heading among the lines, or "default". */
  function Current(lines: seq<string>): string
  {
    if lines == [] then Default
    else if Heading(lines[|lines| - 1]).Some? then Heading(lines[|lines| - 1]).value
    else Current(lines[..|lines| - 1])
  }

  /** Some line of the document that is not a heading falls under a heading
      named key (or under none, for "default"). */
  predicate Owns(lines: seq<string>, key: string)
  {
    exists i :: 0 <= i < |lines| && Heading(lines[i]).None? && Current(lines[..i]) == key
  }

  /** The loop's current name is that of the last heading. */
  lemma {:induction false} FeedAllCurrent(lines: seq<string>)
    ensures FeedAll(Start, lines).current == Current(lines)
    decreases |lines|
  {
    if lines != [] {
      FeedAllCurrent(lines[..|lines| - 1]);
    }
  }

  /** A section is stored exactly when some line that is not a heading
      belongs to it: lines before the first heading make "default", and a
      heading followed at once by another heading, or ending the document,
      stores nothing. */
  lemma {:induction false} SectionKeys(lines: seq<string>)
    ensures forall key :: key in Sections(lines) <==> Owns(lines, key)
    decreases |lines|
  {
    if lines != [] {
      var p := lines[..|lines| - 1];
      var line := lines[|lines| - 1];
      assert p + [line] == lines;
      SectionKeys(p);
      SectionsStep(p, line);
      OwnsStep(p, line);
    }
  }

  /** One more line adds the current section's name to the stored keys
      exactly when the line is not a heading. */
  lemma {:induction false} SectionsStep(p: seq<string>, line: string)
    ensures forall key :: key in Sections(p + [line]) <==>
      key in Sections(p) || (Heading(line).None? && key == Current(p))
  {
    var lines := p + [line];
    assert lines[..|lines| - 1] == p;
    FeedAllCurrent(p);
  }

  /** One more line that is not a heading makes the current section owned. */
  lemma {:induction false} OwnsStep(p: seq<string>, line: string)
    ensures forall key :: Owns(p + [line], key) <==>
      Owns(p, key) || (Heading(line).None? && key == Current(p))
  {
    var lines := p + [line];
    assert forall i :: 0 <= i < |p| ==> lines[i] == p[i] && lines[..i] == p[..i];
    assert lines[..|p|] == p;
    forall key
      ensures Owns(lines, key) <==> Owns(p, key) || (Heading(line).None? && key == Current(p))
    {
      if Owns(p, key) {
        var i :| 0 <= i < |p| && Heading(p[i]).None? && Current(p[..i]) == key;
        assert Heading(lines[i]).None? && Current(lines[..i]) == key;
      }
      if Heading(line).None? && key == Current(p) {
        assert Heading(lines[|p|]).None? && Current(lines[..|p|]) == key;
      }
      if Owns(lines, key) {
        var i :| 0 <= i < |lines| && Heading(lines[i]).None? && Current(lines[..i]) == key;
        if i < |p| {
          assert Heading(p[i]).None? && Current(p[..i]) == key;
        }
      }
    }
  }

  /** Lines that are not headings only extend the current section. */
  lemma {:induction false} FeedAllPlain(x: seq<string>, b: seq<string>)
    requires forall k :: 0 <= k < |b| ==> Heading(b[k]).None?
    ensures var a := FeedAll(Start, x); FeedAll(Start, x + b) == a.(content := a.content + b)
    decreases |b|
  {
    if b == [] {
      assert x + b == x;
    } else {
      var init := b[..|b| - 1];
      var last := b[|b| - 1];
      var a := FeedAll(Start, x);
      assert Heading(last).None?;
      assert forall k :: 0 <= k < |init| ==> init[k] == b[k];
      calc {
        FeedAll(Start, x + b);
        { assert x + b == (x + init) + [last]; }
        FeedAll(Start, (x + init) + [last]);
        { FeedAllSnoc(x + init, last); }
        Feed(FeedAll(Start, x + init), last);
        { FeedAllPlain(x, init); }
        Feed(a.(content := a.content + init), last);
        a.(content := (a.content + init) + [last]);
        { assert (a.content + init) + [last] == a.content + b; }
        a.(content := a.content + b);
      }
    }
  }

  lemma {:induction false} FeedAllSnoc(x: seq<string>, line: string)
    ensures FeedAll(Start, x + [line]) == Feed(FeedAll(Start, x), line)
  {
    assert (x + [line])[..|x|] == x;
  }

  /** A document without headings is one "default" section holding the
      whole stripped text. */
  lemma {:induction false} NoHeadingAllDefault(text: string)
    requires forall k :: 0 <= k < |SplitOn(text, '\n')| ==> Heading(SplitOn(text, '\n')[k]).None?
    ensures ExtractSections(text) == map[Default := Strip(text)]
  {
    var lines := SplitOn(text, '\n');
    FeedAllPlain([], lines);
    assert [] + lines == lines;
    SplitOnJoin(text, '\n');
  }

  /** The last section under a heading decides that heading's text: a
      repeated heading overwrites what an earlier one stored. */
  lemma {:induction false} LastSectionWins(a: seq<string>, h: string, b: seq<string>)
    requires Heading(h).Some?
    requires b != [] && forall k :: 0 <= k < |b| ==> Heading(b[k]).None?
    ensures var r := Sections(a + [h] + b);
      Heading(h).value in r && r[Heading(h).value] == Strip(Join(b, "\n"))
  {
    var name := Heading(h).value;
    var x := a + [h];
    assert x[..|x| - 1] == a && x[|x| - 1] == h;
    var saved := Close(FeedAll(Start, a));
    assert FeedAll(Start, x) == Acc(saved, name, []);
    FeedAllPlain(x, b);
    assert FeedAll(Start, x + b) == Acc(saved, name, [] + b);
    assert [] + b == b;
  }

  // ---------------------------------------------------------------------
  // extract_code_blocks
  // ---------------------------------------------------------------------

  const Fence: string := "```"

  /** "```" starts at i. */
  predicate FenceAt(t: string, i: nat)
  {
    i + 3 <= |t| && t[i] == '`' && t[i + 1] == '`' && t[i + 2] == '`'
  }

  /** The first fence at or after `from`, as the lazy `.*?` finds it. */
  function NextFence(t: string, from: nat): (r: Option<nat>)
    ensures r.Some? ==> from <= r.value && FenceAt(t, r.value)
    ensures r.Some? ==> forall p :: from <= p < r.value ==> !FenceAt(t, p)
    ensures r.None? ==> forall p :: from <= p < |t| ==> !FenceAt(t, p)
    decreases |t| - from
  {
    if from + 3 > |t| then None
    else if FenceAt(t, from) then Some(from)
    else NextFence(t, from + 1)
  }

  /** A fenced block found in the text: its language tag and raw code. */
  datatype RawBlock = RawBlock(tag: string, code: string, end: nat)

  /** The entry `extract_code_blocks` returns for a block. */
  datatype CodeBlock = CodeBlock(language: string, code: string)

  /** The length of the leading run of `[a-zA-Z0-9_]`. */
  function TagRun(s: string): (n: nat)
    ensures n <= |s|
    ensures forall i :: 0 <= i < n ==> IsWordChar(s[i])
    ensures n < |s| ==> !IsWordChar(s[n])
  {
    if s == [] || !IsWordChar(s[0]) then 0 else 1 + TagRun(s[1..])
  }

  /** The match of r'```([a-zA-Z0-9_]*)\n(.*?)```' (DOTALL) starting at i:
      the fence, a tag run, a newline, and the code up to the next fence. */
  function BlockAt(t: string, i: nat): (r: Option<RawBlock>)
    ensures r.Some? ==> i + 7 <= r.value.end <= |t|
  {
    if !FenceAt(t, i) then None
    else
      var l := i + 3 + TagRun(t[i + 3..]);
      if l < |t| && t[l] == '\n' then
        var close := NextFence(t, l + 1);
        if close.Some? then Some(RawBlock(t[i + 3..l], t[l + 1..close.value], close.value + 3)) else None
      else None
  }

  /** `re.finditer`: matches tried from each position, the search going on
      after the end of each match. */
  function BlocksFrom(t: string, i: nat): seq<RawBlock>
    decreases |t| - i
  {
    if i >= |t| then []
    else match BlockAt(t, i)
      case Some(b) => [b] + BlocksFrom(t, b.end)
      case None => BlocksFrom(t, i + 1)
  }

  /** The language defaults to 'text' and the code is stripped. */
  function Finish(b: RawBlock): (r: CodeBlock)
    ensures r.language != ""
    ensures b.tag != "" ==> r.language == b.tag
    ensures Strip(r.code) == r.code
  {
    var code := Strip(b.code);
    StripOfStripped(code);
    CodeBlock(if b.tag == "" then "text" else b.tag, code)
  }

  /** `extract_code_blocks`. */
  function ExtractCodeBlocks(text: string): seq<CodeBlock>
  {
    MapSeq(Finish, BlocksFrom(text, 0))
  }

  /** Every block's language is 'text' or its non-empty tag of word
      characters, and every code is stripped. */
  lemma {:induction false} CodeBlocksShape(text: string)
    ensures var r := ExtractCodeBlocks(text);
      forall k :: 0 <= k < |r| ==>
        && r[k].language != ""
        && (r[k].language == "text" || forall c :: 0 <= c < |r[k].language| ==> IsWordChar(r[k].language[c]))
        && Strip(r[k].code) == r[k].code
  {
    BlocksFromTags(text, 0);
  }

  /** The tag of every block found is a run of word characters. */
  lemma {:induction false} BlocksFromTags(t: string, i: nat)
    ensures forall k :: 0 <= k < |BlocksFrom(t, i)| ==>
      forall c :: 0 <= c < |BlocksFrom(t, i)[k].tag| ==> IsWordChar(BlocksFrom(t, i)[k].tag[c])
    decreases |t| - i
  {
    if i < |t| {
      var b := BlockAt(t, i);
      if b.Some? {
        BlocksFromTags(t, b.value.end);
        var l := i + 3 + TagRun(t[i + 3..]);
        assert b.value.tag == t[i + 3..][..l - (i + 3)];
      } else {
        BlocksFromTags(t, i + 1);
      }
    }
  }

  /** A document that is one fenced block, with a tag of word characters
      and code without a backtick, gives back that block, its language
      defaulting to 'text' and its code stripped. */
  lemma {:induction false} CodeBlockRoundTrip(tag: string, code: string)
    requires forall i :: 0 <= i < |tag| ==> IsWordChar(tag[i])
    requires '`' !in code
    ensures ExtractCodeBlocks(Fence + tag + "\n" + code + Fence) ==
      [CodeBlock(if tag == "" then "text" else tag, Strip(code))]
  {
    var t := Fence + tag + "\n" + code + Fence;
    assert BlockAt(t, 0) == Some(RawBlock(tag, code, |t|)) by {
      FencedBlockAt(tag, code);
    }
    assert BlocksFrom(t, 0) == [RawBlock(tag, code, |t|)];
  }

  /** The match at the start of a one-block document. */
  lemma {:induction false} FencedBlockAt(tag: string, code: string)
    requires forall i :: 0 <= i < |tag| ==> IsWordChar(tag[i])
    requires '`' !in code
    ensures var t := Fence + tag + "\n" + code + Fence;
      BlockAt(t, 0) == Some(RawBlock(tag, code, |t|))
  {
    var t := Fence + tag + "\n" + code + Fence;
    var l := 3 + |tag|;
    var j := l + 1 + |code|;
    FencedParts(tag, code);
    TagRunOfTag(tag, "\n" + code + Fence);
    NoFenceIn(t, code, l + 1);
    NextFenceFirst(t, l + 1, j);
    BlockAtParts(t, 0, l, j);
  }

  /** Where the pieces of a one-block document lie. */
  lemma FencedParts(tag: string, code: string)
    ensures var t := Fence + tag + "\n" + code + Fence;
      var l := 3 + |tag|;
      var j := l + 1 + |code|;
      && |t| == j + 3 && FenceAt(t, 0) && FenceAt(t, j) && t[l] == '\n'
      && t[3..] == tag + ("\n" + code + Fence) && t[3..l] == tag && t[l + 1..j] == code
  {
    var pre := Fence + tag + "\n";
    var t := pre + code + Fence;
    var l := 3 + |tag|;
    var j := l + 1 + |code|;
    assert t == Fence + tag + "\n" + code + Fence;
    assert t[..l + 1] == pre && t[l + 1..j] == code && t[j..] == Fence;
    assert t[3..l] == pre[3..l];
  }

  lemma {:induction false} BlockAtParts(t: string, i: nat, l: nat, j: nat)
    requires FenceAt(t, i) && l == i + 3 + TagRun(t[i + 3..])
    requires l < |t| && t[l] == '\n' && NextFence(t, l + 1) == Some(j)
    ensures BlockAt(t, i) == Some(RawBlock(t[i + 3..l], t[l + 1..j], j + 3))
  {
    var close := NextFence(t, l + 1);
    assert close.Some? && close.value == j;
  }

  /** No fence starts inside a stretch of text without backticks. */
  lemma {:induction false} NoFenceIn(t: string, code: string, start: nat)
    requires start + |code| <= |t| && t[start..start + |code|] == code
    requires '`' !in code
    ensures forall p :: start <= p < start + |code| ==> !FenceAt(t, p)
  {
    forall p | start <= p < start + |code|
      ensures !FenceAt(t, p)
    {
      assert t[p] == code[p - start];
    }
  }

  lemma {:induction false} TagRunOfTag(tag: string, rest: string)
    requires forall i :: 0 <= i < |tag| ==> IsWordChar(tag[i])
    requires rest != [] && !IsWordChar(rest[0])
    ensures TagRun(tag + rest) == |tag|
  {
    assert (tag + rest)[|tag|] == rest[0];
  }

  /** NextFence returns the first fence at or after `from`. */
  lemma {:induction false} NextFenceFirst(t: string, from: nat, j: nat)
    requires from <= j && FenceAt(t, j)
    requires forall p :: from <= p < j ==> !FenceAt(t, p)
    ensures NextFence(t, from) == Some(j)
  {
    var r := NextFence(t, from);
    assert r.Some?;
  }

  // ---------------------------------------------------------------------
  // extract_links
  // ---------------------------------------------------------------------

  /** A link `extract_links` returns: its text and its url. */
  datatype Link = Link(text: string, url: string)

  /** The length of the leading run of characters other than c. */
  function RunNot(s: string, c: char): (n: nat)
    ensures n <= |s|
    ensures forall i :: 0 <= i < n ==> s[i] != c
    ensures n < |s| ==> s[n] == c
  {
    if s == [] || s[0] == c then 0 else 1 + RunNot(s[1..], c)
  }

  /** The match of r'\[([^\]]+)\]\(([^)]+)\)' starting at i, with the
      position after it. */
  function MarkdownAt(t: string, i: nat): (r: Option<(Link, nat)>)
    ensures r.Some? ==> i < r.value.1 <= |t|
    ensures r.Some? ==> r.value.0.text != [] && ']' !in r.value.0.text
    ensures r.Some? ==> r.value.0.url != [] && ')' !in r.value.0.url
  {
    if i >= |t| || t[i] != '[' then None
    else
      var a := RunNot(t[i + 1..], ']');
      var p := i + 1 + a;
      if a == 0 || p + 1 >= |t| || t[p + 1] != '(' then None
      else
        var b := RunNot(t[p + 2..], ')');
        var q := p + 2 + b;
        if b == 0 || q >= |t| then None
        else
          assert t[i + 1..p] == t[i + 1..][..a];
          assert t[p + 2..q] == t[p + 2..][..b];
          Some((Link(t[i + 1..p], t[p + 2..q]), q + 1))
  }

  function MarkdownFrom(t: string, i: nat): (r: seq<Link>)
    ensures forall k :: 0 <= k < |r| ==> r[k].text != [] && ']' !in r[k].text && r[k].url != [] && ')' !in r[k].url
    decreases |t| - i
  {
    if i >= |t| then []
    else match MarkdownAt(t, i)
      case Some(m) => [m.0] + MarkdownFrom(t, m.1)
      case None => MarkdownFrom(t, i + 1)
  }

  /** `extract_links`: every markdown link, in order, then every HTML link.
      The HTML pattern's matches are a parameter. */
  function ExtractLinks(text: string, htmlLinks: seq<Link>): (r: seq<Link>)
    ensures |r| == |MarkdownFrom(text, 0)| + |htmlLinks|
    ensures r[..|MarkdownFrom(text, 0)|] == MarkdownFrom(text, 0)
    ensures r[|MarkdownFrom(text, 0)|..] == htmlLinks
  {
    MarkdownFrom(text, 0) + htmlLinks
  }

  /** A markdown link written out is read back. */
  lemma {:induction false} MarkdownRoundTrip(text: string, url: string)
    requires text != [] && ']' !in text
    requires url != [] && ')' !in url
    ensures MarkdownFrom("[" + text + "](" + url + ")", 0) == [Link(text, url)]
  {
    var t := "[" + text + "](" + url + ")";
    assert MarkdownAt(t, 0) == Some((Link(text, url), |t|)) by {
      MarkdownLinkAt(text, url);
    }
  }

  /** The match at the start of a written-out markdown link. */
  lemma {:induction false} MarkdownLinkAt(text: string, url: string)
    requires text != [] && ']' !in text
    requires url != [] && ')' !in url
    ensures var t := "[" + text + "](" + url + ")";
      MarkdownAt(t, 0) == Some((Link(text, url), |t|))
  {
    MarkdownParts(text, url);
    RunNotOf(text, "](" + url + ")", ']');
    RunNotOf(url, ")", ')');
  }

  /** Where the pieces of a written-out markdown link lie. */
  lemma MarkdownParts(text: string, url: string)
    ensures var t := "[" + text + "](" + url + ")";
      var p := 1 + |text|;
      && |t| == p + 3 + |url| && t[0] == '[' && t[p] == ']' && t[p + 1] == '('
      && t[1..] == text + ("](" + url + ")") && t[p + 2..] == url + ")"
      && t[1..p] == text && t[p + 2..p + 2 + |url|] == url
  {
    var t := "[" + text + "](" + url + ")";
    var p := 1 + |text|;
    assert t[1..] == text + ("](" + url + ")");
    assert t[p + 2..] == url + ")";
  }

  lemma {:induction false} RunNotOf(s: string, rest: string, c: char)
    requires c !in s && rest != [] && rest[0] == c
    ensures RunNot(s + rest, c) == |s|
  {
    assert (s + rest)[|s|] == c;
  }
}
